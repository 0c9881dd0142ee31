/** The first activation: what the selector does where nothing was ever activated. */
module ActivationFirst {
  import opened Wrappers
  import opened RecordCodec
  import opened Activation
  import opened ActivationInvariant
  import opened ActivationSteps
  import opened ActivationJobs
  import opened ActivationTheorems
  import opened ActivationResume

  /** Neither anchor carries a prepare record. */
  predicate Unprepared(s: State) {
    s.system.prepare.visible == None && s.selfManaged.prepare.visible == None
  }

  /** There is a root to act for: a system anchor, or a declared self-managed one. */
  predicate HasRoot(s: State) {
    s.system.provisioned || s.selfManaged.claim.visible.Some?
  }

  function ClaimInSight(s: State): Option<AuthorityRecord> {
    if s.system.claim.visible.Some? then s.system.claim.visible else s.selfManaged.claim.visible
  }

  /** The root a claim names, and otherwise the system one. */
  function FirstRoot(c: Config, s: State): Side {
    var claim := ClaimInSight(s);
    if claim.Some? && Names(c, claim.value, SelfManaged) then SelfManaged else System
  }

  function BareView(a: Anchor): View {
    if a.provisioned then Present(a.claim.visible, NeverActivated) else Absent
  }

  lemma BareViewOf(c: Config, s: State, side: Side)
    requires c.Valid() && DiskOk(c, s) && Unprepared(s)
    ensures ViewOf(c, s, side) == BareView(s.At(side))
  {
    DiscoverVerdict(c, s, side);
  }

  // ----- the decision ----------------------------------------------------------------------

  function FirstGoal(desired: Bytes, supported: bool): Goal {
    if supported then Activate(desired) else ClaimOnly(UnsupportedLease)
  }

  /** What a first decision is, by the world and not by the views. */
  predicate FirstVerdict(c: Config, s: State, d: Verdict, desired: Bytes, supported: bool) {
    if !HasRoot(s) then d.Stop?
    else if !supported && ClaimInSight(s) == None then d == Lease(System, s.selfManaged.provisioned)
    else
      && d.Start? && d.job.selected == FirstRoot(c, s) && !d.job.initializer
      && d.job.goal == FirstGoal(desired, supported)
      && d.job.peer == s.At(FirstRoot(c, s).Other()).provisioned
      && (ClaimInSight(s).Some? ==> d.job.claim == ClaimInSight(s).value)
  }

  lemma ClaimedRoot(c: Config, s: State)
    requires c.Valid() && DiskOk(c, s) && ClaimInSight(s).Some?
    ensures Names(c, ClaimInSight(s).value, FirstRoot(c, s)) && s.At(FirstRoot(c, s)).provisioned
  {
  }

  lemma FirstDecision(c: Config, s: State, desired: Bytes, supported: bool, freshId: Bytes)
    requires c.Valid() && c.Encodable() && DiskOk(c, s) && Unprepared(s)
    ensures FirstVerdict(c, s, Decide(c, s, BareView(s.system), BareView(s.selfManaged), desired, supported, freshId),
                         desired, supported)
  {
    if ClaimInSight(s).Some? {
      ClaimedRoot(c, s);
    }
  }

  // ----- publishing the claim --------------------------------------------------------------

  /** `pid` alone is still establishing the claim, and the stores are as they were. */
  predicate Claiming(s: State, pid: Pid, side: Side, goal: Goal, stores: map<Bytes, Store>) {
    && s.procs.Keys == {pid} && s.procs[pid].Working? && Unprepared(s) && s.stores == stores
    && s.procs[pid].job.selected == side && s.procs[pid].job.goal == goal && JobFits(s, s.procs[pid].job)
    && Rank(s.procs[pid].pc) >= Rank(SyncClaim)
  }

  /** The claim stands: the process goes on to the store, or ends with its lease. */
  predicate Claimed(s: State, pid: Pid, side: Side, goal: Goal, stores: map<Bytes, Store>) {
    && s.procs.Keys == {pid} && Unprepared(s) && s.stores == stores
    && match s.procs[pid]
       case Working(job, pc) => goal.Activate? && job.selected == side && job.goal == goal && pc == ResolvePrepare
       case Done(selected, _, outcome) => goal == ClaimOnly(outcome) && selected == side
       case _ => false
  }

  lemma PublishClaims(s: State, pid: Pid, side: Side, goal: Goal, stores: map<Bytes, Store>, at: Side, next: Pc)
    requires Claiming(s, pid, side, goal, stores) && Rank(next) >= Rank(SyncClaim)
    ensures var job := s.procs[pid].job;
            var t := Continue(PublishedClaim(s, at, job.claim), s, pid, job, next);
            Claiming(t, pid, side, goal, stores) && t.procs[pid].pc == next
  {
  }

  lemma ClaimStep(c: Config, s: State, pid: Pid, side: Side, goal: Goal, stores: map<Bytes, Store>, created: Store)
    requires Claiming(s, pid, side, goal, stores)
    ensures var t := Worked(c, s, pid, created);
            || Claimed(t, pid, side, goal, stores)
            || (Claiming(t, pid, side, goal, stores) && Rank(t.procs[pid].pc) < Rank(s.procs[pid].pc))
  {
    match s.procs[pid].pc
    case PublishWitness => PublishClaims(s, pid, side, goal, stores, side.Other(), SyncWitness);
    case PublishClaim => PublishClaims(s, pid, side, goal, stores, side, SyncClaim);
    case _ =>
  }

  lemma {:induction false} DriveClaim(c: Config, s: State, pid: Pid, side: Side, goal: Goal, stores: map<Bytes, Store>,
                                      created: Store)
    returns (n: nat, t: State)
    requires Claiming(s, pid, side, goal, stores) && FreshStore(created)
    ensures n <= Rank(s.procs[pid].pc) - 7 && Reaches(c, s, Works(pid, created, n), t)
    ensures Claimed(t, pid, side, goal, stores)
    decreases Rank(s.procs[pid].pc)
  {
    ClaimStep(c, s, pid, side, goal, stores, created);
    WorksOnce(c, s, pid, created);
    var m := Worked(c, s, pid, created);
    if Claimed(m, pid, side, goal, stores) {
      n, t := 1, m;
    } else {
      n, t := DriveClaim(c, m, pid, side, goal, stores, created);
      WorksJoin(c, s, pid, created, m, n, t);
      n := n + 1;
    }
  }

  lemma {:induction false} WorksAppend(c: Config, s: State, pid: Pid, created: Store, k: nat, m: State, n: nat, t: State)
    requires Reaches(c, s, Works(pid, created, k), m) && Reaches(c, m, Works(pid, created, n), t)
    ensures Reaches(c, s, Works(pid, created, k + n), t)
  {
    RunAppend(c, s, Works(pid, created, k), m, Works(pid, created, n), t);
    WorksSum(pid, created, k, n);
  }

  lemma {:induction false} WorksSum(pid: Pid, created: Store, k: nat, n: nat)
    ensures Works(pid, created, k) + Works(pid, created, n) == Works(pid, created, k + n)
  {
    if k == 0 {
      assert Works(pid, created, 0) == [];
    } else {
      WorksSum(pid, created, k - 1, n);
    }
  }

  // ----- recording the desired store -----------------------------------------------------------

  /** What a caller can check of the desired store before the call. */
  predicate Usable(c: Config, stores: map<Bytes, Store>, side: Side, desired: Bytes) {
    && PutPath(desired).Some?
    && |c.At(side).locator| + |desired| <= MAX_RECORD_BYTES - TWO_LOCATOR_OVERHEAD
    && (desired in stores ==> stores[desired].inherited == None)
  }

  /** The record that first names the desired store. */
  predicate FirstRecord(c: Config, s: State, side: Side, desired: Bytes, r: PrepareRecord) {
    && r.Authority() == c.At(side) && r.storeLocator == desired
    && Resumable(s, r)
  }

  predicate Recording(c: Config, s: State, pid: Pid, side: Side, desired: Bytes) {
    && s.procs.Keys == {pid} && s.procs[pid].Working?
    && s.procs[pid].job.selected == side && s.procs[pid].job.goal == Activate(desired)
    && match s.procs[pid].pc
       case PublishPrepare(r) => FirstRecord(c, s, side, desired, r) && s.At(side).prepare.visible == None
       case SyncPrepare(r) => FirstRecord(c, s, side, desired, r) && s.At(side).prepare.visible == Some(r)
       case _ => false
  }

  lemma ResolveStep(c: Config, s: State, pid: Pid, side: Side, desired: Bytes, stores: map<Bytes, Store>, created: Store)
    requires c.Encodable() && Claimed(s, pid, side, Activate(desired), stores) && FreshStore(created)
    requires Usable(c, stores, side, desired)
    ensures var t := Worked(c, s, pid, created);
            Recording(c, t, pid, side, desired) && t.procs[pid].pc.PublishPrepare?
  {
  }

  lemma PublishStep(c: Config, s: State, pid: Pid, side: Side, desired: Bytes, created: Store)
    requires Recording(c, s, pid, side, desired) && s.procs[pid].pc.PublishPrepare?
    ensures var t := Worked(c, s, pid, created);
            Recording(c, t, pid, side, desired) && t.procs[pid].pc.SyncPrepare?
  {
  }

  lemma SyncStep(c: Config, s: State, pid: Pid, side: Side, desired: Bytes, created: Store)
    requires Recording(c, s, pid, side, desired) && s.procs[pid].pc.SyncPrepare?
    ensures var t, r := Worked(c, s, pid, created), s.procs[pid].pc.r;
            r.storeLocator == desired && Tracked(t, pid, side, r)
  {
  }

  /** Three actions record the desired store durably. */
  lemma Records(c: Config, s: State, pid: Pid, side: Side, desired: Bytes, stores: map<Bytes, Store>, created: Store)
    returns (n: nat, t: State, r: PrepareRecord)
    requires c.Encodable() && Claimed(s, pid, side, Activate(desired), stores) && FreshStore(created)
    requires Usable(c, stores, side, desired)
    ensures n <= 3 && Reaches(c, s, Works(pid, created, n), t)
    ensures r.storeLocator == desired && Tracked(t, pid, side, r)
  {
    ResolveStep(c, s, pid, side, desired, stores, created);
    WorksOnce(c, s, pid, created);
    var s1 := Worked(c, s, pid, created);
    PublishStep(c, s1, pid, side, desired, created);
    WorksOnce(c, s1, pid, created);
    var s2 := Worked(c, s1, pid, created);
    t, r := RecordsLast(c, s2, pid, side, desired, created);
    WorksJoin(c, s1, pid, created, s2, 1, t);
    WorksJoin(c, s, pid, created, s1, 2, t);
    n := 3;
  }

  lemma RecordsLast(c: Config, s: State, pid: Pid, side: Side, desired: Bytes, created: Store)
    returns (t: State, r: PrepareRecord)
    requires Recording(c, s, pid, side, desired) && s.procs[pid].pc.SyncPrepare? && FreshStore(created)
    ensures Reaches(c, s, Works(pid, created, 1), t)
    ensures r.storeLocator == desired && Tracked(t, pid, side, r)
  {
    SyncStep(c, s, pid, side, desired, created);
    WorksOnce(c, s, pid, created);
    t, r := Worked(c, s, pid, created), s.procs[pid].pc.r;
  }

  /** The record is durable and the binding comes next. */
  predicate Tracked(s: State, pid: Pid, side: Side, r: PrepareRecord) {
    OnTrack(s, pid, side, r) && Interrupted(s, side, r) && s.procs[pid].pc.PublishBinding?
  }

  // ----- the theorems -----------------------------------------------------------------------

  /** A machine on which nothing runs and nothing was ever activated, after some run. */
  predicate NeverRun(c: Config, init: State, before: seq<Step>, s: State) {
    c.Valid() && c.Encodable() && Init(init) && Reaches(c, init, before, s) && s.procs == map[] && Unprepared(s)
  }

  /** Both anchors are open and bare, and there is a root to act for. */
  predicate Deciding(c: Config, s: State, pid: Pid) {
    && c.Encodable() && Inv(c, s) && Unprepared(s) && HasRoot(s)
    && s.procs == map[pid := SawBoth(BareView(s.system), BareView(s.selfManaged))]
  }

  lemma ClaimBegins(c: Config, s: State, pid: Pid, desired: Bytes, supported: bool, freshId: Bytes)
    requires Unprepared(s) && HasRoot(s) && Agreement(s) && (supported || ClaimInSight(s).Some?)
    requires s.procs == map[pid := SawBoth(BareView(s.system), BareView(s.selfManaged))]
    requires FirstVerdict(c, s, Decide(c, s, BareView(s.system), BareView(s.selfManaged), desired, supported, freshId),
                          desired, supported)
    ensures Claiming(Selected(c, s, pid, desired, supported, freshId), pid, FirstRoot(c, s),
                     FirstGoal(desired, supported), s.stores)
  {
  }

  /** With a claim to establish, the process starts on it with the goal that fits the backend. */
  lemma SelectsClaim(c: Config, s: State, pid: Pid, desired: Bytes, supported: bool, freshId: Bytes) returns (t: State)
    requires Deciding(c, s, pid) && (supported || ClaimInSight(s).Some?)
    ensures Claiming(t, pid, FirstRoot(c, s), FirstGoal(desired, supported), s.stores)
    ensures Reaches(c, s, [Select(pid, desired, supported, freshId)], t)
  {
    FirstDecision(c, s, desired, supported, freshId);
    ClaimBegins(c, s, pid, desired, supported, freshId);
    t := Selected(c, s, pid, desired, supported, freshId);
    RunStep(c, s, Select(pid, desired, supported, freshId), [], t);
  }

  /** Without one and without support it keeps the locks it holds and writes nothing. */
  lemma SelectsLease(c: Config, s: State, pid: Pid, desired: Bytes, freshId: Bytes) returns (t: State)
    requires Deciding(c, s, pid) && ClaimInSight(s) == None
    ensures t == s.Now(pid, Done(System, s.selfManaged.provisioned, UnsupportedLease))
    ensures Reaches(c, s, [Select(pid, desired, false, freshId)], t)
  {
    FirstDecision(c, s, desired, false, freshId);
    t := Selected(c, s, pid, desired, false, freshId);
    RunStep(c, s, Select(pid, desired, false, freshId), [], t);
  }

  lemma RecordsThen(c: Config, s: State, k: nat, m: State, pid: Pid, side: Side, desired: Bytes, stores: map<Bytes, Store>,
                    created: Store)
    returns (n: nat, t: State, r: PrepareRecord)
    requires Reaches(c, s, Works(pid, created, k), m)
    requires c.Encodable() && Claimed(m, pid, side, Activate(desired), stores) && FreshStore(created)
    requires Usable(c, stores, side, desired)
    ensures n <= k + 3 && Reaches(c, s, Works(pid, created, n), t)
    ensures r.storeLocator == desired && Tracked(t, pid, side, r)
  {
    n, t, r := Records(c, m, pid, side, desired, stores, created);
    WorksAppend(c, s, pid, created, k, m, n, t);
    n := k + n;
  }

  /** From the decision on to the durable record. */
  lemma RecordsFrom(c: Config, s: State, pid: Pid, side: Side, desired: Bytes, stores: map<Bytes, Store>, created: Store)
    returns (n: nat, t: State, r: PrepareRecord)
    requires c.Encodable() && Claiming(s, pid, side, Activate(desired), stores) && FreshStore(created)
    requires Usable(c, stores, side, desired)
    ensures n <= 7 && Reaches(c, s, Works(pid, created, n), t)
    ensures r.storeLocator == desired && Tracked(t, pid, side, r)
  {
    var k, m := DriveClaim(c, s, pid, side, Activate(desired), stores, created);
    n, t, r := RecordsThen(c, s, k, m, pid, side, desired, stores, created);
  }

  lemma FinishesFrom(c: Config, s: State, trace: seq<Step>, m: State, pid: Pid, side: Side, r: PrepareRecord, created: Store)
    returns (n: nat, t: State)
    requires Inv(c, s) && Reaches(c, s, trace, m) && Tracked(m, pid, side, r) && FreshStore(created)
    ensures n <= 5 && Reaches(c, m, Works(pid, created, n), t)
    ensures Activates(t, pid, side, r.storeLocator, r)
  {
    RunInv(c, s, trace, m);
    n, t := Drive(c, m, pid, side, r, created);
  }

  /** A step and two stretches of work are one run. */
  lemma Glue(c: Config, s: State, step: Step, s1: State, pid: Pid, created: Store, k: nat, m: State, n: nat, t: State)
    requires Reaches(c, s, [step], s1)
    requires Reaches(c, s1, Works(pid, created, k), m) && Reaches(c, m, Works(pid, created, n), t)
    ensures Reaches(c, s, [step] + Works(pid, created, k + n), t)
  {
    WorksAppend(c, s1, pid, created, k, m, n, t);
    RunAppend(c, s, [step], s1, Works(pid, created, k + n), t);
  }

  lemma FinishesAfter(c: Config, s: State, step: Step, s1: State, k: nat, m: State, pid: Pid, side: Side, r: PrepareRecord,
                      created: Store)
    returns (n: nat, t: State)
    requires Inv(c, s) && Reaches(c, s, [step], s1) && Reaches(c, s1, Works(pid, created, k), m)
    requires Tracked(m, pid, side, r) && FreshStore(created)
    ensures n <= k + 5 && Reaches(c, s, [step] + Works(pid, created, n), t)
    ensures Activates(t, pid, side, r.storeLocator, r)
  {
    RunAppend(c, s, [step], s1, Works(pid, created, k), m);
    n, t := FinishesFrom(c, s, [step] + Works(pid, created, k), m, pid, side, r, created);
    Glue(c, s, step, s1, pid, created, k, m, n, t);
    n := k + n;
  }

  lemma ActivatesAfter(c: Config, s: State, step: Step, s1: State, pid: Pid, side: Side, desired: Bytes, created: Store)
    returns (n: nat, t: State, r: PrepareRecord)
    requires c.Encodable() && Inv(c, s) && Reaches(c, s, [step], s1) && FreshStore(created)
    requires Claiming(s1, pid, side, Activate(desired), s1.stores) && Usable(c, s1.stores, side, desired)
    ensures n <= 12 && Reaches(c, s, [step] + Works(pid, created, n), t)
    ensures Activates(t, pid, side, desired, r)
  {
    var k, m;
    k, m, r := RecordsFrom(c, s1, pid, side, desired, s1.stores, created);
    n, t := FinishesAfter(c, s, step, s1, k, m, pid, side, r, created);
  }

  /** Opening both anchors shows the process that nothing was ever activated. */
  lemma OpensBare(c: Config, init: State, before: seq<Step>, s: State, pid: Pid) returns (m: State)
    requires NeverRun(c, init, before, s) && HasRoot(s)
    ensures Inv(c, s) && Deciding(c, m, pid) && SameSight(s, m)
    ensures Reaches(c, s, [OpenSystem(pid)] + [OpenSelf(pid)], m)
  {
    InitInv(c, init);
    RunInv(c, init, before, s);
    m := SeesBoth(c, s, pid);
    BareViewOf(c, m, System);
    BareViewOf(c, m, SelfManaged);
  }

  lemma ActivatesAfterSelect(c: Config, s: State, pid: Pid, desired: Bytes, freshId: Bytes, created: Store)
    returns (n: nat, t: State, r: PrepareRecord)
    requires Deciding(c, s, pid) && FreshStore(created) && Usable(c, s.stores, FirstRoot(c, s), desired)
    ensures n <= 12 && Reaches(c, s, [Select(pid, desired, true, freshId)] + Works(pid, created, n), t)
    ensures Activates(t, pid, FirstRoot(c, s), desired, r)
  {
    var s1 := SelectsClaim(c, s, pid, desired, true, freshId);
    n, t, r := ActivatesAfter(c, s, Select(pid, desired, true, freshId), s1, pid, FirstRoot(c, s), desired, created);
  }

  predicate Activates(t: State, pid: Pid, side: Side, desired: Bytes, r: PrepareRecord) {
    r.storeLocator == desired && Finished(t, pid, side, r) && Interrupted(t, side, r)
  }

  lemma LeasesAfter(c: Config, s: State, step: Step, s1: State, pid: Pid, side: Side, created: Store)
    returns (n: nat, t: State)
    requires Reaches(c, s, [step], s1) && FreshStore(created)
    requires Claiming(s1, pid, side, ClaimOnly(UnsupportedLease), s1.stores)
    ensures n <= 4 && Reaches(c, s, [step] + Works(pid, created, n), t)
    ensures Claimed(t, pid, side, ClaimOnly(UnsupportedLease), s1.stores)
  {
    n, t := DriveClaim(c, s1, pid, side, ClaimOnly(UnsupportedLease), s1.stores, created);
    RunAppend(c, s, [step], s1, Works(pid, created, n), t);
  }

  lemma LeasesAfterSelect(c: Config, s: State, pid: Pid, desired: Bytes, freshId: Bytes, created: Store)
    returns (n: nat, t: State)
    requires Deciding(c, s, pid) && FreshStore(created)
    ensures n <= 4 && Reaches(c, s, [Select(pid, desired, false, freshId)] + Works(pid, created, n), t)
    ensures Claimed(t, pid, FirstRoot(c, s), ClaimOnly(UnsupportedLease), s.stores)
    ensures ClaimInSight(s) == None ==> n == 0 && SameSight(s, t)
  {
    var select := Select(pid, desired, false, freshId);
    if ClaimInSight(s).Some? {
      var s1 := SelectsClaim(c, s, pid, desired, false, freshId);
      n, t := LeasesAfter(c, s, select, s1, pid, FirstRoot(c, s), created);
    } else {
      n := 0;
      t := SelectsLease(c, s, pid, desired, freshId);
      assert [select] + Works(pid, created, 0) == [select];
    }
  }

  /**
   First activation: with a root to act for and a usable store, opening both anchors,
   selecting and at most twelve durable actions activate the desired store on the root the
   claim names, and on the system root without a claim.
   */
  lemma FirstActivation(c: Config, init: State, before: seq<Step>, s: State, pid: Pid,
                        desired: Bytes, freshId: Bytes, created: Store)
    returns (n: nat, t: State)
    requires NeverRun(c, init, before, s) && HasRoot(s) && FreshStore(created)
    requires Usable(c, s.stores, FirstRoot(c, s), desired)
    ensures n <= 12 && Reaches(c, s, Rerun(pid, desired, true, freshId, created, n), t)
    ensures pid in t.procs && t.procs[pid].Done? && t.procs[pid].selected == FirstRoot(c, s)
    ensures t.procs[pid].outcome == ActivatedStore(desired)
    ensures Discover(c, t, FirstRoot(c, s)) == Activated(desired)
  {
    var m := OpensBare(c, init, before, s, pid);
    var r;
    n, t, r := ActivatesAfterSelect(c, m, pid, desired, freshId, created);
    RunRerun(c, s, m, t, pid, desired, true, freshId, created, n);
    RunInv(c, s, Rerun(pid, desired, true, freshId, created, n), t);
    DiscoverVerdict(c, t, FirstRoot(c, s));
  }

  /**
   Without backend support the same call ends with a lease on the same root and writes no
   prepare record; without a claim it writes nothing at all.
   */
  lemma UnsupportedOnlyLeases(c: Config, init: State, before: seq<Step>, s: State, pid: Pid,
                              desired: Bytes, freshId: Bytes, created: Store)
    returns (n: nat, t: State)
    requires NeverRun(c, init, before, s) && HasRoot(s) && FreshStore(created)
    ensures n <= 4 && Reaches(c, s, Rerun(pid, desired, false, freshId, created, n), t)
    ensures pid in t.procs && t.procs[pid].Done? && t.procs[pid].selected == FirstRoot(c, s)
    ensures t.procs[pid].outcome == UnsupportedLease
    ensures Unprepared(t) && StoresLook(s.stores, t.stores)
    ensures ClaimInSight(s) == None ==> n == 0 && SameSight(s, t)
  {
    var m := OpensBare(c, init, before, s, pid);
    n, t := LeasesAfterSelect(c, m, pid, desired, freshId, created);
    RunRerun(c, s, m, t, pid, desired, false, freshId, created, n);
  }

  // ----- exactly when the selector refuses ------------------------------------------------------

  predicate Spoiled(s: State, side: Side) {
    s.At(side).prepare.visible.Some? && !Resumable(s, s.At(side).prepare.visible.value)
  }

  /** A recorded store that cannot be resumed, or nothing recorded and no root to act for. */
  predicate Blocked(s: State) {
    Spoiled(s, System) || Spoiled(s, SelfManaged) || (Unprepared(s) && !HasRoot(s))
  }

  lemma SpoiledStops(c: Config, s: State, side: Side, desired: Bytes, supported: bool, freshId: Bytes)
    requires c.Valid() && DiskOk(c, s) && Spoiled(s, side)
    ensures Decide(c, s, ViewOf(c, s, System), ViewOf(c, s, SelfManaged), desired, supported, freshId).Stop?
  {
    DiscoverVerdict(c, s, side);
  }

  lemma ReadyStarts(c: Config, s: State, side: Side, p: PrepareRecord, desired: Bytes, supported: bool, freshId: Bytes)
    requires c.Valid() && c.Encodable() && DiskOk(c, s) && Interrupted(s, side, p) && Settled(s)
    ensures Decide(c, s, ViewOf(c, s, System), ViewOf(c, s, SelfManaged), desired, supported, freshId).Start?
  {
    ReadyViewOf(c, s, side, p);
    DiscoverVerdict(c, s, System);
    DiscoverVerdict(c, s, SelfManaged);
    ResumeDecision(c, s, ViewOf(c, s, System), ViewOf(c, s, SelfManaged), side, p, desired, supported, freshId);
  }

  lemma DecidesExactly(c: Config, s: State, desired: Bytes, supported: bool, freshId: Bytes)
    requires c.Valid() && c.Encodable() && DiskOk(c, s) && Settled(s)
    ensures Decide(c, s, ViewOf(c, s, System), ViewOf(c, s, SelfManaged), desired, supported, freshId).Stop?
            <==> Blocked(s)
  {
    if Unprepared(s) {
      BareViewOf(c, s, System);
      BareViewOf(c, s, SelfManaged);
      FirstDecision(c, s, desired, supported, freshId);
    } else {
      var side := if s.system.prepare.visible.Some? then System else SelfManaged;
      SingleEvidence(c, s);
      if Spoiled(s, side) {
        SpoiledStops(c, s, side, desired, supported, freshId);
      } else {
        ReadyStarts(c, s, side, s.At(side).prepare.visible.value, desired, supported, freshId);
      }
    }
  }

  lemma SightBlocked(s: State, t: State)
    requires SameSight(s, t)
    ensures Blocked(t) <==> Blocked(s)
  {
  }

  lemma StopEnds(c: Config, s: State, pid: Pid, v: View, w: View, desired: Bytes, supported: bool, freshId: Bytes)
    returns (t: State)
    requires s.procs == map[pid := SawBoth(v, w)]
    ensures Reaches(c, s, [Select(pid, desired, supported, freshId)], t)
    ensures (pid in t.procs <==> !Decide(c, s, v, w, desired, supported, freshId).Stop?) && SameSight(s, t)
  {
    t := Selected(c, s, pid, desired, supported, freshId);
    RunStep(c, s, Select(pid, desired, supported, freshId), [], t);
  }

  lemma SelectsExactly(c: Config, s: State, pid: Pid, desired: Bytes, supported: bool, freshId: Bytes) returns (t: State)
    requires Inv(c, s) && c.Encodable() && Settled(s)
    requires s.procs == map[pid := SawBoth(ViewOf(c, s, System), ViewOf(c, s, SelfManaged))]
    ensures Reaches(c, s, [Select(pid, desired, supported, freshId)], t)
    ensures (pid in t.procs <==> !Blocked(s)) && SameSight(s, t)
  {
    DecidesExactly(c, s, desired, supported, freshId);
    t := StopEnds(c, s, pid, ViewOf(c, s, System), ViewOf(c, s, SelfManaged), desired, supported, freshId);
  }

  /**
   The selector, alone on the machine, is refused exactly when a recorded store cannot be
   resumed or when nothing is recorded and there is no root to act for; deciding writes nothing.
   */
  lemma RefusesExactly(c: Config, init: State, before: seq<Step>, s: State, pid: Pid,
                       desired: Bytes, supported: bool, freshId: Bytes, created: Store) returns (t: State)
    requires c.Valid() && c.Encodable() && Init(init) && Reaches(c, init, before, s) && s.procs == map[]
    ensures Reaches(c, s, Rerun(pid, desired, supported, freshId, created, 0), t)
    ensures (pid in t.procs <==> !Blocked(s)) && SameSight(s, t)
  {
    InitInv(c, init);
    RunInv(c, init, before, s);
    var m := SeesBoth(c, s, pid);
    SightBlocked(s, m);
    t := SelectsExactly(c, m, pid, desired, supported, freshId);
    assert [Select(pid, desired, supported, freshId)] + Works(pid, created, 0) == [Select(pid, desired, supported, freshId)];
    RunRerun(c, s, m, t, pid, desired, supported, freshId, created, 0);
  }

  // ----- explicit self-initialization -----------------------------------------------------------

  /** The claim the initializer insists on: the one there, or a new one naming its own root. */
  function SelfClaim(c: Config, s: State, freshId: Bytes): AuthorityRecord {
    if s.selfManaged.claim.visible.Some? then s.selfManaged.claim.visible.value
    else AuthorityRecord(freshId, c.selfManaged.locator, c.selfManaged.identity, c.selfManaged.backend)
  }

  lemma SelfExpected(c: Config, s: State, freshId: Bytes)
    requires c.Valid() && c.Encodable() && DiskOk(c, s) && !s.system.provisioned && !Spoiled(s, SelfManaged)
    ensures ExpectedClaim(c, s, SelfManaged, s.selfManaged.claim.visible, None, freshId) == Some(SelfClaim(c, s, freshId))
    ensures Names(c, SelfClaim(c, s, freshId), SelfManaged)
  {
  }

  lemma InitDecides(c: Config, s: State, pid: Pid, freshId: Bytes)
    requires c.Valid() && c.Encodable() && DiskOk(c, s) && !s.system.provisioned && s.selfManaged.provisioned
    requires pid in s.procs && s.procs[pid] == InitOpened(ViewOf(c, s, SelfManaged))
    ensures InitClaimed(c, s, pid, freshId) ==
              if Spoiled(s, SelfManaged) then s.Ended(pid)
              else s.Now(pid, Working(Job(SelfManaged, false, SelfClaim(c, s, freshId), ClaimOnly(ClaimDeclared), true),
                                      PublishClaim))
  {
    DiscoverVerdict(c, s, SelfManaged);
    if !Spoiled(s, SelfManaged) {
      SelfExpected(c, s, freshId);
    }
  }

  function Admission(pid: Pid): seq<Step> {
    [InitCheck(pid)] + ([InitProvision(pid)] + [InitRecheck(pid)])
  }

  function Initialization(pid: Pid): seq<Step> {
    Admission(pid) + [InitOpen(pid)]
  }

  lemma InitAdmits(c: Config, s: State, pid: Pid) returns (t: State)
    requires pid !in s.procs && !s.system.provisioned
    ensures Reaches(c, s, Admission(pid), t)
    ensures t == s.(selfManaged := s.selfManaged.(provisioned := true), procs := s.procs[pid := InitRechecked])
  {
    var s1 := s.Now(pid, InitAdmitted);
    var s2 := s1.With(SelfManaged, s1.selfManaged.(provisioned := true)).Now(pid, InitProvisioned);
    t := s2.Now(pid, InitRechecked);
    assert t.procs == s.procs[pid := InitRechecked];
    RunStep(c, s2, InitRecheck(pid), [], t);
    RunStep(c, s1, InitProvision(pid), [InitRecheck(pid)], t);
    RunStep(c, s, InitCheck(pid), [InitProvision(pid)] + [InitRecheck(pid)], t);
  }

  lemma InitOpens(c: Config, s: State, pid: Pid) returns (t: State)
    requires Inv(c, s) && s.procs == map[] && !s.system.provisioned
    ensures Reaches(c, s, Initialization(pid), t) && Inv(c, t)
    ensures SameSight(s.(selfManaged := s.selfManaged.(provisioned := true)), t)
    ensures t.procs == map[pid := InitOpened(ViewOf(c, t, SelfManaged))]
  {
    var m := InitAdmits(c, s, pid);
    t := InitSees(c, m, pid);
    RunAppend(c, s, Admission(pid), m, [InitOpen(pid)], t);
    RunInv(c, s, Initialization(pid), t);
  }

  lemma InitSees(c: Config, s: State, pid: Pid) returns (t: State)
    requires s.procs == map[pid := InitRechecked] && s.selfManaged.provisioned && s.selfManaged.lock == None
    ensures Reaches(c, s, [InitOpen(pid)], t) && SameSight(s, t)
    ensures t.procs == map[pid := InitOpened(ViewOf(c, t, SelfManaged))]
  {
    t := Apply(c, s, InitOpen(pid));
    OpenedAnchors(c, s, SelfManaged, pid);
    OpenedSight(c, s, SelfManaged, pid);
    SightView(c, Opened(c, s, SelfManaged, pid), t, SelfManaged);
    RunStep(c, s, InitOpen(pid), [], t);
  }

  /** The two actions that publish the claim and make it durable. */
  lemma InitPublishes(c: Config, s: State, pid: Pid, k: AuthorityRecord, created: Store) returns (t: State)
    requires FreshStore(created) && (s.selfManaged.claim.visible.Some? ==> s.selfManaged.claim.visible.value == k)
    requires s.procs == map[pid := Working(Job(SelfManaged, false, k, ClaimOnly(ClaimDeclared), true), PublishClaim)]
    ensures Reaches(c, s, Works(pid, created, 2), t)
    ensures t.procs == map[pid := Done(SelfManaged, false, ClaimDeclared)] && t.selfManaged.claim.durable == Some(k)
    ensures t.system == s.system && t.stores == s.stores && t.selfManaged.prepare.visible == s.selfManaged.prepare.visible
  {
    var s1 := Worked(c, s, pid, created);
    WorksOnce(c, s, pid, created);
    t := Worked(c, s1, pid, created);
    WorksOnce(c, s1, pid, created);
    WorksJoin(c, s, pid, created, s1, 1, t);
  }

  /** Whoever initializes: provision, open, declare, publish. */
  function Declaration(pid: Pid, freshId: Bytes, created: Store, n: nat): seq<Step> {
    Initialization(pid) + ([InitClaim(pid, freshId)] + Works(pid, created, n))
  }

  lemma DeclaresFrom(c: Config, s: State, pid: Pid, freshId: Bytes, created: Store) returns (n: nat, t: State)
    requires Inv(c, s) && c.Encodable() && !s.system.provisioned && s.selfManaged.provisioned && FreshStore(created)
    requires s.procs == map[pid := InitOpened(ViewOf(c, s, SelfManaged))]
    ensures n <= 2 && Reaches(c, s, [InitClaim(pid, freshId)] + Works(pid, created, n), t)
    ensures pid in t.procs <==> !Spoiled(s, SelfManaged)
    ensures pid in t.procs ==>
              && t.procs[pid] == Done(SelfManaged, false, ClaimDeclared)
              && t.selfManaged.claim.durable == Some(SelfClaim(c, s, freshId))
  {
    var claim := InitClaim(pid, freshId);
    InitDecides(c, s, pid, freshId);
    var s1 := InitClaimed(c, s, pid, freshId);
    n, t := 0, s1;
    if !Spoiled(s, SelfManaged) {
      n := 2;
      t := InitPublishes(c, s1, pid, SelfClaim(c, s, freshId), created);
    }
    RunStep(c, s, claim, Works(pid, created, n), t);
  }

  /**
   Explicit self-initialization on a machine without a system anchor: it declares the
   self-managed root durably, keeping a claim already made, exactly unless what that root
   recorded cannot be resumed.
   */
  lemma SelfInitialization(c: Config, init: State, before: seq<Step>, s: State, pid: Pid, freshId: Bytes, created: Store)
    returns (n: nat, t: State)
    requires c.Valid() && c.Encodable() && Init(init) && Reaches(c, init, before, s) && s.procs == map[]
    requires !s.system.provisioned && FreshStore(created)
    ensures n <= 2 && Reaches(c, s, Declaration(pid, freshId, created, n), t)
    ensures pid in t.procs <==> !Spoiled(s, SelfManaged)
    ensures pid in t.procs ==>
              && t.procs[pid] == Done(SelfManaged, false, ClaimDeclared)
              && t.selfManaged.claim.durable == Some(SelfClaim(c, s, freshId))
              && Names(c, SelfClaim(c, s, freshId), SelfManaged)
  {
    InitInv(c, init);
    RunInv(c, init, before, s);
    var m := InitOpens(c, s, pid);
    n, t := DeclaresFrom(c, m, pid, freshId, created);
    RunAppend(c, s, Initialization(pid), m, [InitClaim(pid, freshId)] + Works(pid, created, n), t);
    if !Spoiled(s, SelfManaged) {
      SelfExpected(c, s, freshId);
    }
  }
}
