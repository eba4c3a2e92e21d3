/** What an approval pins: the invariants of core.py over runs that mix review, execution, pause and resume. */
module Approvals {
  import opened Basics
  import opened Tables
  import opened Execution
  import opened PlanProgress

  type Plans = map<PlanId, Plan>
  type Versions = map<VersionId, Version>

  function Current(plans: Plans, p: PlanId): VersionId
    requires p in plans
  {
    VersionId(p, plans[p].version)
  }

  /** Each plan's current version, when it has one, is stored, and no stored version is newer. */
  ghost predicate VersionsStored(plans: Plans, versions: Versions) {
    && (forall p | p in plans && plans[p].version >= 1 :: Current(plans, p) in versions)
    && (forall id | id in versions :: id.plan in plans && 1 <= id.number <= plans[id.plan].version)
  }

  /** UNIQUE(content_hash) on plan_versions. */
  ghost predicate HashesUnique(versions: Versions) {
    forall x, y | x in versions && y in versions && versions[x].hash == versions[y].hash :: x == y
  }

  /** The approval of p is of the version on the table, and p is out of the review states
      even after the resume that a pause makes possible. */
  ghost predicate PinnedPlan(db: Db, p: PlanId)
    requires p in db.approvals
  {
    && p in db.plans
    && Current(db.plans, p) in db.versions
    && db.approvals[p].hash == db.versions[Current(db.plans, p)].hash
    && !Reviewable(db.plans[p].state)
    && (db.plans[p].state == Paused ==> p in db.controls && !Reviewable(db.controls[p]))
  }

  ghost predicate Pinned(db: Db) { forall p | p in db.approvals :: PinnedPlan(db, p) }

  ghost predicate ControlsLive(controls: map<PlanId, PlanState>) {
    forall p | p in controls :: controls[p] != Paused
  }

  ghost predicate ReviewInv(db: Db) {
    VersionsStored(db.plans, db.versions) && HashesUnique(db.versions) && Pinned(db) && ControlsLive(db.controls)
  }

  /** The steps the pin is promised for. record_plan and record_github_edit as one step each always are. A commit that
      comes later than its guards, a resume and a direct write of a planning state meet their exact conditions here
      (LateCommitKeepsIff, LateEditKeepsIff, ResumeKeepsIff). */
  predicate Guarded(db: Db, a: Action) {
    match a
    case RecordPlan(_, v, _, _) => v >= 1
    case CommitPlan(p, v, _, _) => v >= 1 && NothingNewer(db, p, v)
    case CommitEdit(p, v, _) => NothingNewer(db, p, v)
    case Resume(p) => p in db.approvals ==> SavedOutsideReview(db, p)
    case SetPlanState(p, st) => Reviewable(st) ==> p !in db.approvals
    case _ => true
  }

  /** No approval and no version as new as v. */
  predicate NothingNewer(db: Db, p: PlanId, v: nat) {
    p !in db.approvals && (p in db.plans ==> v > db.plans[p].version)
  }

  predicate SavedOutsideReview(db: Db, p: PlanId) { p in db.controls && !Reviewable(db.controls[p]) }

  ghost predicate GuardedRun(s: Sys, actions: seq<Action>)
    decreases |actions|
  {
    actions != [] ==> Guarded(s.db, actions[0]) && GuardedRun(Step(s, actions[0]), actions[1..])
  }

  // ----- a new version -----

  /** p gets a new current version while it is not approved. */
  ghost predicate Versioned(db: Db, db': Db, p: PlanId, plan: Plan, row: Version) {
    && db' == db.(plans := db.plans[p := plan], versions := db.versions[VersionId(p, plan.version) := row])
    && plan.version >= 1
    && (p in db.plans ==> plan.version > db.plans[p].version)
    && (forall id | id in db.versions :: db.versions[id].hash != row.hash)
    && p !in db.approvals
  }

  lemma VersionedStored(plans: Plans, versions: Versions, p: PlanId, plan: Plan, row: Version)
    requires VersionsStored(plans, versions) && plan.version >= 1 && (p in plans ==> plan.version > plans[p].version)
    ensures VersionsStored(plans[p := plan], versions[VersionId(p, plan.version) := row])
  {
    var plans', versions' := plans[p := plan], versions[VersionId(p, plan.version) := row];
    forall q | q in plans' && plans'[q].version >= 1 ensures Current(plans', q) in versions' {
      if q != p { assert Current(plans, q) in versions; }
    }
  }

  lemma VersionedUnique(versions: Versions, id: VersionId, row: Version)
    requires HashesUnique(versions) && forall x | x in versions :: versions[x].hash != row.hash
    ensures HashesUnique(versions[id := row])
  {
  }

  lemma VersionedPinned(db: Db, db': Db, p: PlanId, plan: Plan, row: Version)
    requires Pinned(db) && Versioned(db, db', p, plan, row)
    ensures Pinned(db')
  {
    forall q | q in db'.approvals ensures PinnedPlan(db', q) {
      assert PinnedPlan(db, q) && q != p;
    }
  }

  lemma VersionedKeeps(db: Db, db': Db, p: PlanId, plan: Plan, row: Version)
    requires ReviewInv(db) && Versioned(db, db', p, plan, row)
    ensures ReviewInv(db')
  {
    VersionedStored(db.plans, db.versions, p, plan, row);
    VersionedUnique(db.versions, VersionId(p, plan.version), row);
    VersionedPinned(db, db', p, plan, row);
  }

  lemma AllPinned(db: Db)
    requires ReviewInv(db)
    ensures ControlsLive(db.controls) && forall q | q in db.approvals :: PinnedPlan(db, q)
  {
  }

  lemma RecordPlanKeeps(db: Db, p: PlanId, v: nat, row: Version, url: string)
    requires ReviewInv(db) && v >= 1
    ensures ReviewInv(Commit(db, Tables.RecordPlan(db, p, v, row, url)))
  {
    var a := Action.RecordPlan(p, v, row, url);
    if OtherStep(db, a) != db {
      var plan := VersionStep(db, a);
      AllPinned(db);
      hide ReviewInv, Tables.RecordPlan;
      VersionedKeeps(db, OtherStep(db, a), p, plan, row);
    }
  }

  lemma GithubEditKeeps(db: Db, p: PlanId, url: string, row: Version)
    requires ReviewInv(db)
    ensures ReviewInv(Commit(db, RecordGithubEdit(db, p, url, row)))
  {
    var a := GithubEdit(p, url, row);
    if OtherStep(db, a) != db {
      var plan := VersionStep(db, a);
      hide ReviewInv, RecordGithubEdit;
      VersionedKeeps(db, OtherStep(db, a), p, plan, row);
    }
  }

  // ----- approvals and states -----

  /** Versions stay; each plan keeps its number; approvals, states and saved states may change. */
  ghost predicate NumbersKept(db: Db, db': Db) {
    && db'.versions == db.versions
    && (forall p :: p in db'.plans <==> p in db.plans)
    && (forall p | p in db.plans :: db'.plans[p].version == db.plans[p].version)
  }

  lemma NumbersKeptStored(db: Db, db': Db)
    requires VersionsStored(db.plans, db.versions) && NumbersKept(db, db')
    ensures VersionsStored(db'.plans, db'.versions)
  {
    assert forall p | p in db.plans :: Current(db'.plans, p) == Current(db.plans, p);
  }

  lemma NumbersKeptKeeps(db: Db, db': Db)
    requires ReviewInv(db) && NumbersKept(db, db') && ControlsLive(db'.controls)
    requires forall p | p in db'.approvals :: PinnedPlan(db', p)
    ensures ReviewInv(db')
  {
    NumbersKeptStored(db, db');
  }

  /** A first approval: it names the hash of the current version and moves the plan to accepted. */
  lemma NewApprovalKeeps(db: Db, p: PlanId, a: Approval)
    requires ReviewInv(db) && p in db.plans && CurrentHash(db, p) == Some(a.hash)
    ensures ReviewInv(SetState(db.(approvals := db.approvals[p := a]), p, Accepted))
  {
    hide VersionsStored, HashesUnique, ReviewInv;
    AllPinned(db);
    var db' := SetState(db.(approvals := db.approvals[p := a]), p, Accepted);
    forall q | q in db'.approvals ensures PinnedPlan(db', q) {
      if q != p { assert PinnedPlan(db, q); }
    }
    NumbersKeptKeeps(db, db');
  }

  lemma ApproveKeeps(db: Db, p: PlanId, a: Approval)
    requires ReviewInv(db)
    ensures ReviewInv(Commit(db, Tables.Approve(db, p, a)))
  {
    hide VersionsStored, HashesUnique, ReviewInv, PinnedPlan;
    if Tables.Approve(db, p, a).Ok? {
      if p in db.approvals {
        SetStateOnly(db, p, Accepted);
        StatesOnlyKeeps(db, SetState(db, p, Accepted));
      } else {
        NewApprovalKeeps(db, p, a);
      }
    }
  }

  /** Approved plans stay approved and out of review. */
  ghost predicate StatesOnly(db: Db, db': Db) {
    && NumbersKept(db, db')
    && db'.approvals == db.approvals && db'.controls == db.controls
    && (forall p | p in db.plans && p in db.approvals ::
          db'.plans[p].state == db.plans[p].state
          || (!Reviewable(db'.plans[p].state) && db'.plans[p].state != Paused))
  }

  lemma StatesOnlyKeeps(db: Db, db': Db)
    requires ReviewInv(db) && StatesOnly(db, db')
    ensures ReviewInv(db')
  {
    forall p | p in db'.approvals ensures PinnedPlan(db', p) { assert PinnedPlan(db, p); }
    NumbersKeptKeeps(db, db');
  }

  lemma SetStateOnly(db: Db, p: PlanId, st: PlanState)
    requires p in db.approvals ==> !Reviewable(st) && st != Paused
    ensures StatesOnly(db, SetState(db, p, st))
  {
    hide Reviewable;
  }

  lemma PauseKeeps(db: Db, p: PlanId)
    requires ReviewInv(db)
    ensures ReviewInv(Commit(db, PausePlan(db, p)))
  {
    hide VersionsStored, HashesUnique, ReviewInv;
    AllPinned(db);
    var db' := Commit(db, PausePlan(db, p));
    forall q | q in db'.approvals ensures PinnedPlan(db', q) { assert PinnedPlan(db, q); }
    NumbersKeptKeeps(db, db');
  }

  lemma ReopenKeeps(db: Db, p: PlanId)
    requires ReviewInv(db)
    ensures ReviewInv(ReopenReview(db, p))
  {
    hide VersionsStored, HashesUnique, ReviewInv;
    AllPinned(db);
    var db' := ReopenReview(db, p);
    forall q | q in db'.approvals ensures PinnedPlan(db', q) { assert q in db.approvals && PinnedPlan(db, q); }
    NumbersKeptKeeps(db, db');
  }

  lemma IntakeKeeps(db: Db, p: PlanId)
    requires ReviewInv(db)
    ensures ReviewInv(BeginIntake(db, p))
  {
    if p !in db.plans {
      var db' := BeginIntake(db, p);
      AllPinned(db);
      IntakeStored(db, p);
      hide VersionsStored, HashesUnique;
      forall q | q in db'.approvals ensures PinnedPlan(db', q) { assert PinnedPlan(db, q) && q != p; }
    }
  }

  lemma IntakeStored(db: Db, p: PlanId)
    requires VersionsStored(db.plans, db.versions) && p !in db.plans
    ensures VersionsStored(BeginIntake(db, p).plans, db.versions)
  {
    var plans' := BeginIntake(db, p).plans;
    forall q | q in plans' && plans'[q].version >= 1 ensures Current(plans', q) in db.versions {
      assert Current(db.plans, q) in db.versions;
    }
  }

  // ----- resume, and a commit later than its guards -----

  lemma ResumeKeeps(db: Db, p: PlanId)
    requires ReviewInv(db) && (p in db.approvals ==> SavedOutsideReview(db, p))
    ensures ReviewInv(ResumePlan(db, p))
  {
    hide VersionsStored, HashesUnique, ReviewInv;
    AllPinned(db);
    var db' := ResumePlan(db, p);
    forall q | q in db'.approvals ensures PinnedPlan(db', q) { assert PinnedPlan(db, q); }
    NumbersKeptKeeps(db, db');
  }

  /** Resuming keeps everything exactly when an approved plan has a saved state outside review. */
  lemma ResumeKeepsIff(db: Db, p: PlanId)
    requires ReviewInv(db)
    ensures ReviewInv(ResumePlan(db, p)) <==> (p in db.approvals ==> SavedOutsideReview(db, p))
  {
    if p in db.approvals ==> SavedOutsideReview(db, p) {
      ResumeKeeps(db, p);
    } else {
      assert PinnedPlan(db, p);
      hide VersionsStored, HashesUnique;
      assert !PinnedPlan(ResumePlan(db, p), p);
    }
  }

  /** The transaction of record_plan run later than its guards keeps everything exactly when
      no approval arrived in between and no newer version did. */
  lemma LateCommitKeepsIff(db: Db, p: PlanId, v: nat, row: Version, url: string)
    requires ReviewInv(db) && v >= 1 && Tables.CommitPlan(db, p, v, row, url).Ok?
    ensures ReviewInv(Tables.CommitPlan(db, p, v, row, url).value)
       <==> NothingNewer(db, p, v)
  {
    var db' := Tables.CommitPlan(db, p, v, row, url).value;
    if p in db.approvals {
      hide VersionsStored, HashesUnique;
      assert !PinnedPlan(db', p);
    } else if p in db.plans && v <= db.plans[p].version {
      assert Current(db.plans, p) in db.versions;
      hide HashesUnique, Pinned;
      assert VersionId(p, v) !in db.versions && v < db.plans[p].version && Current(db.plans, p) in db'.versions;
      assert !VersionsStored(db'.plans, db'.versions);
    } else {
      hide VersionsStored, HashesUnique, Pinned;
      VersionedKeeps(db, db', p, Plan(Review, v, Some(url)), row);
    }
  }

  /** A paused plan may always be resumed: what pausing saved of an approved plan is outside review. */
  lemma PausedMayResume(db: Db, p: PlanId)
    requires ReviewInv(db) && p in db.plans && db.plans[p].state == Paused
    ensures Guarded(db, Resume(p))
  {
    assert p in db.approvals ==> PinnedPlan(db, p);
  }

  /** The same of record_github_edit: its transaction keeps everything exactly when no approval arrived since the guards
      and no newer version did. */
  lemma LateEditKeepsIff(db: Db, p: PlanId, v: nat, row: Version)
    requires ReviewInv(db) && v >= 1 && Tables.CommitEdit(db, p, v, row).Ok?
    ensures ReviewInv(Tables.CommitEdit(db, p, v, row).value) <==> NothingNewer(db, p, v)
  {
    var db' := Tables.CommitEdit(db, p, v, row).value;
    if p in db.approvals {
      hide VersionsStored, HashesUnique;
      assert !PinnedPlan(db', p);
    } else if v <= db.plans[p].version {
      assert Current(db.plans, p) in db.versions;
      hide HashesUnique, Pinned;
      assert VersionId(p, v) !in db.versions && v < db.plans[p].version && Current(db.plans, p) in db'.versions;
      assert !VersionsStored(db'.plans, db'.versions);
    } else {
      hide VersionsStored, HashesUnique, Pinned;
      VersionedKeeps(db, db', p, db.plans[p].(state := Review, version := v), row);
    }
  }

  // ----- every step -----

  /** The reconciler writes only running, failed, completed and decomposed, and never a version number. */
  lemma ReconcilerStatesOnly(s: Sys, a: Action)
    requires Execution.Inv(s) && OfReconciler(a)
    ensures StatesOnly(s.db, Step(s, a).db)
  {
    hide Step, Execution.Inv;
    ReconcilerFollows(s, a);
  }

  lemma DecomposedOnly(db: Db, p: PlanId, url: string)
    ensures StatesOnly(db, Tables.MarkDecomposed(db, p, url))
  {
  }

  lemma OtherStatesOnly(db: Db, a: Action)
    requires a.MarkDecomposed? || a.Register? || a.SetPlanState? || a.ExhaustTurn? || a.Refresh?
    requires Guarded(db, a)
    ensures StatesOnly(db, OtherStep(db, a))
  {
    match a
    case MarkDecomposed(p, url) => DecomposedOnly(db, p, url);
    case Register(p, urls) => OtherLeavesQueue(db, a); hide OtherStep;
    case SetPlanState(p, st) => if st !in {Completed, Paused} { SetStateOnly(db, p, st); }
    case ExhaustTurn(p) => SetStateOnly(db, p, NeedsInput);
    case Refresh(name, phase) => OtherLeavesQueue(db, a); hide OtherStep;
  }

  lemma OtherKeepsReview(db: Db, a: Action)
    requires ReviewInv(db) && !OfReconciler(a) && Guarded(db, a)
    ensures ReviewInv(OtherStep(db, a))
  {
    match a
    case Intake(p) => IntakeKeeps(db, p);
    case RecordPlan(p, v, row, url) => RecordPlanKeeps(db, p, v, row, url);
    case GithubEdit(p, url, row) => GithubEditKeeps(db, p, url, row);
    case Approve(p, approval) => ApproveKeeps(db, p, approval);
    case CommitPlan(p, v, row, url) => if Tables.CommitPlan(db, p, v, row, url).Ok? { LateCommitKeepsIff(db, p, v, row, url); }
    case CommitEdit(p, v, row) => if Tables.CommitEdit(db, p, v, row).Ok? { LateEditKeepsIff(db, p, v, row); }
    case Reopen(p) => ReopenKeeps(db, p);
    case Pause(p) => PauseKeeps(db, p);
    case Resume(p) => ResumeKeeps(db, p);
    case _ =>
      OtherStatesOnly(db, a);
      StatesOnlyKeeps(db, OtherStep(db, a));
  }

  lemma StepKeepsReview(s: Sys, a: Action)
    requires Execution.Inv(s) && ReviewInv(s.db) && Guarded(s.db, a)
    ensures ReviewInv(Step(s, a).db)
  {
    if OfReconciler(a) {
      hide Execution.Inv, ReviewInv;
      ReconcilerStatesOnly(s, a);
      StatesOnlyKeeps(s.db, Step(s, a).db);
    } else {
      hide Execution.Inv, ReviewInv;
      OtherKeepsReview(s.db, a);
    }
  }

  lemma {:induction false} RunKeepsReview(s: Sys, actions: seq<Action>)
    requires Execution.Inv(s) && ReviewInv(s.db) && GuardedRun(s, actions)
    ensures ReviewInv(Run(s, actions).db)
    decreases |actions|
  {
    hide Execution.Inv, ReviewInv, Step, Guarded;
    if actions != [] {
      StepKeepsInv(s, actions[0]);
      StepKeepsReview(s, actions[0]);
      RunKeepsReview(Step(s, actions[0]), actions[1..]);
    }
  }

  // ----- main results -----

  /** While a plan is approved, its approval is of the current version's hash, and that version is stored. */
  lemma ApprovalPinsContent(actions: seq<Action>, p: PlanId)
    requires GuardedRun(INITIAL, actions)
    ensures var db := Run(INITIAL, actions).db;
            && (p in db.approvals ==> CurrentHash(db, p) == Some(db.approvals[p].hash))
            && (p in db.plans && db.plans[p].version >= 1 ==> VersionId(p, db.plans[p].version) in db.versions)
  {
    InitialReview();
    hide Run, GuardedRun;
    RunKeepsReview(INITIAL, actions);
    var db := Run(INITIAL, actions).db;
    if p in db.approvals { assert PinnedPlan(db, p); }
    if p in db.plans && db.plans[p].version >= 1 { assert Current(db.plans, p) in db.versions; }
  }

  lemma InitialReview()
    ensures Execution.Inv(INITIAL) && ReviewInv(INITIAL.db)
  {
  }

  lemma OtherKeepsVersion(db: Db, a: Action, p: PlanId)
    requires !OfReconciler(a) && Guarded(db, a) && p in db.plans
    ensures p in OtherStep(db, a).plans && OtherStep(db, a).plans[p].version >= db.plans[p].version
  {
    if WritesVersion(a) {
      if OtherStep(db, a) != db {
        var plan := VersionStep(db, a);
        hide OtherStep;
      }
    } else {
      OtherLeavesQueue(db, a);
      hide RegisterDeliverables, ApprovalEventTaken;
    }
  }

  /** current_version never decreases over a guarded continuation. */
  lemma {:induction false} VersionNeverDecreases(s: Sys, actions: seq<Action>, p: PlanId)
    requires Execution.Inv(s) && GuardedRun(s, actions) && p in s.db.plans
    ensures p in Run(s, actions).db.plans && Run(s, actions).db.plans[p].version >= s.db.plans[p].version
    decreases |actions|
  {
    hide Execution.Inv, OtherStep, ReconcilerStep;
    if actions != [] {
      StepKeepsInv(s, actions[0]);
      if OfReconciler(actions[0]) {
        ReconcilerStatesOnly(s, actions[0]);
      } else {
        OtherKeepsVersion(s.db, actions[0], p);
      }
      VersionNeverDecreases(Step(s, actions[0]), actions[1..], p);
    }
  }

  /** The approval, the version number and the stored text of p are what they were. */
  ghost predicate SamePin(db: Db, db': Db, p: PlanId)
    requires p in db.approvals && PinnedPlan(db, p)
  {
    && p in db'.approvals && db'.approvals[p] == db.approvals[p]
    && p in db'.plans && Current(db'.plans, p) == Current(db.plans, p)
    && Current(db.plans, p) in db'.versions && db'.versions[Current(db.plans, p)] == db.versions[Current(db.plans, p)]
  }

  lemma OtherKeepsPin(db: Db, a: Action, p: PlanId)
    requires !OfReconciler(a) && Guarded(db, a) && p in db.approvals && PinnedPlan(db, p) && a != Reopen(p)
    ensures SamePin(db, OtherStep(db, a), p)
  {
    if WritesVersion(a) {
      if OtherStep(db, a) != db {
        var plan := VersionStep(db, a);
        hide OtherStep;
      }
    } else {
      OtherLeavesQueue(db, a);
      hide RegisterDeliverables, ApprovalEventTaken;
    }
  }

  lemma StepKeepsPin(s: Sys, a: Action, p: PlanId)
    requires Execution.Inv(s) && Guarded(s.db, a) && p in s.db.approvals && PinnedPlan(s.db, p) && a != Reopen(p)
    ensures SamePin(s.db, Step(s, a).db, p)
  {
    hide Execution.Inv, OtherStep, ReconcilerStep, Guarded, PinnedPlan, SamePin;
    if OfReconciler(a) {
      ReconcilerStatesOnly(s, a);
      StatesOnlyPin(s.db, Step(s, a).db, p);
    } else {
      OtherKeepsPin(s.db, a, p);
    }
  }

  lemma StatesOnlyPin(db: Db, db': Db, p: PlanId)
    requires StatesOnly(db, db') && p in db.approvals && PinnedPlan(db, p)
    ensures SamePin(db, db', p)
  {
  }

  /** Until its approval is removed, an approved plan keeps the approval and the text it approved. */
  lemma {:induction false} FrozenUntilReopened(s: Sys, actions: seq<Action>, p: PlanId)
    requires Execution.Inv(s) && ReviewInv(s.db) && GuardedRun(s, actions)
    requires p in s.db.approvals && PinnedPlan(s.db, p) && Reopen(p) !in actions
    ensures SamePin(s.db, Run(s, actions).db, p)
    decreases |actions|
  {
    hide Execution.Inv, Step, ReviewInv, Guarded;
    if actions != [] {
      var s1 := Step(s, actions[0]);
      StepKeepsInv(s, actions[0]);
      StepKeepsReview(s, actions[0]);
      StepKeepsPin(s, actions[0], p);
      AllPinned(s1.db);
      FrozenUntilReopened(s1, actions[1..], p);
    }
  }

  // ----- the races that break the pin -----

  const FIRST := Version("h1", "e1", "m1")
  const SECOND := Version("h2", "e2", "m2")
  const APPROVAL := Approval("h1", "e", "owner")

  const REVIEWED := EMPTY.(plans := map["p" := Plan(Review, 1, Some("u"))], versions := map[VersionId("p", 1) := FIRST])
  const APPROVED := REVIEWED.(plans := map["p" := Plan(Accepted, 1, Some("u"))], approvals := map["p" := APPROVAL])

  /** p is approved, but of another text than the current one. */
  predicate PinBroken(db: Db, p: PlanId) { p in db.approvals && CurrentHash(db, p) != Some(db.approvals[p].hash) }

  lemma Reviewed()
    ensures Step(INITIAL, Action.RecordPlan("p", 1, FIRST, "u")).db == REVIEWED
  {
  }

  lemma ApproveFirst()
    ensures Tables.Approve(REVIEWED, "p", APPROVAL) == Ok(APPROVED)
  {
    assert REVIEWED.versions[VersionId("p", 1)].hash == APPROVAL.hash;
    assert REVIEWED.plans["p" := REVIEWED.plans["p"].(state := Accepted)] == APPROVED.plans;
    assert map[]["p" := APPROVAL] == APPROVED.approvals;
  }

  /** record_plan's guards pass, an approval commits, record_plan commits: the approval names an obsolete version. */
  lemma RecordPlanRace()
    ensures Step(INITIAL, Action.RecordPlan("p", 1, FIRST, "u")).db == REVIEWED
    ensures Tables.RecordPlan(REVIEWED, "p", 2, SECOND, "u") == Tables.CommitPlan(REVIEWED, "p", 2, SECOND, "u")
    ensures Tables.Approve(REVIEWED, "p", APPROVAL) == Ok(APPROVED)
    ensures Tables.CommitPlan(APPROVED, "p", 2, SECOND, "u").Ok?
    ensures PinBroken(Tables.CommitPlan(APPROVED, "p", 2, SECOND, "u").value, "p")
  {
    Reviewed();
    ApproveFirst();
    assert VersionId("p", 1) != VersionId("p", 2);
  }

  /** The same of record_github_edit: its guards see no approval, one commits while the issue is published, and the edit
      replaces the text that was approved. */
  lemma GithubEditRace()
    ensures Step(INITIAL, Action.RecordPlan("p", 1, FIRST, "u")).db == REVIEWED
    ensures EditGuards(REVIEWED, "p", "u", SECOND.hash) == Ok(Some(2))
    ensures Tables.Approve(REVIEWED, "p", APPROVAL) == Ok(APPROVED)
    ensures Tables.CommitEdit(APPROVED, "p", 2, SECOND).Ok?
    ensures PinBroken(Tables.CommitEdit(APPROVED, "p", 2, SECOND).value, "p")
  {
    Reviewed();
    ApproveFirst();
    assert VersionId("p", 1) != VersionId("p", 2);
  }

  const PAUSED := REVIEWED.(plans := map["p" := Plan(Paused, 1, Some("u"))], controls := map["p" := Review])
  const ACCEPTED := PAUSED.(plans := APPROVED.plans, approvals := APPROVED.approvals)
  const RESUMED := REVIEWED.(approvals := APPROVED.approvals)

  /** A plan is paused in review. The Matrix thread reads that it is paused; an approval by label, on a thread that does
      not take the Matrix lock, commits; the resume then puts the approved plan back into review, and its text is replaced. */
  lemma PausedReviewRace()
    ensures PausePlan(REVIEWED, "p") == Ok(PAUSED) && PAUSED.plans["p"].state == Paused
    ensures Tables.Approve(PAUSED, "p", APPROVAL) == Ok(ACCEPTED)
    ensures !Guarded(ACCEPTED, Resume("p")) && ResumePlan(ACCEPTED, "p") == RESUMED
    ensures RESUMED.plans["p"].state == Review && "p" in RESUMED.approvals
    ensures Tables.RecordPlan(RESUMED, "p", 2, SECOND, "u").Ok?
    ensures PinBroken(Tables.RecordPlan(RESUMED, "p", 2, SECOND, "u").value, "p")
  {
    hide PausePlan, Tables.Approve, ResumePlan, Tables.RecordPlan, PinBroken;
    PausedThenApproved();
    ResumedOpen();
    ReplacedText();
  }

  lemma ResumedOpen()
    ensures ResumePlan(ACCEPTED, "p") == RESUMED
  {
    assert ACCEPTED.plans["p" := ACCEPTED.plans["p"].(state := Review)] == REVIEWED.plans;
    assert map["p" := Review] - {"p"} == map[];
  }

  lemma ReplacedText()
    ensures Tables.RecordPlan(RESUMED, "p", 2, SECOND, "u").Ok?
    ensures PinBroken(Tables.RecordPlan(RESUMED, "p", 2, SECOND, "u").value, "p")
  {
    assert VersionId("p", 1) != VersionId("p", 2);
  }

  lemma PausedThenApproved()
    ensures PausePlan(REVIEWED, "p") == Ok(PAUSED)
    ensures Tables.Approve(PAUSED, "p", APPROVAL) == Ok(ACCEPTED)
  {
    assert REVIEWED.plans["p" := REVIEWED.plans["p"].(state := Paused)] == PAUSED.plans;
    assert map[]["p" := Review] == PAUSED.controls;
    assert PAUSED.versions[VersionId("p", 1)].hash == APPROVAL.hash;
    assert PAUSED.plans["p" := PAUSED.plans["p"].(state := Accepted)] == ACCEPTED.plans;
    assert map[]["p" := APPROVAL] == ACCEPTED.approvals;
  }

  // ----- is what runs what was approved? -----

  /** The approval in force for p is of this text. */
  predicate ApprovedAs(db: Db, p: PlanId, hash: string) { p in db.approvals && db.approvals[p].hash == hash }

  /** In every reachable state what is about to be dispatched is approved text exactly when the plan has an approval row
      and the version read is still the current one. */
  lemma DispatchIsApprovedIff(actions: seq<Action>)
    requires GuardedRun(INITIAL, actions) && Run(INITIAL, actions).thread.Dispatching?
    ensures var s := Run(INITIAL, actions);
            var (p, hash) := (s.thread.slot.plan, s.thread.hash);
            ApprovedAs(s.db, p, hash) <==> p in s.db.approvals && CurrentHash(s.db, p) == Some(hash)
  {
    hide Run, GuardedRun;
    ApprovalPinsContent(actions, Run(INITIAL, actions).thread.slot.plan);
  }

  /** What p's dispatch, if one is under way, would start is what was approved. */
  predicate DispatchesApproved(s: Sys, p: PlanId) {
    s.thread.Dispatching? && s.thread.slot.plan == p ==> ApprovedAs(s.db, p, s.thread.hash)
  }

  /** From an approval on, until it is removed, whatever is dispatched of the plan is the approved text. */
  lemma {:induction false} OnlyApprovedTextRuns(s: Sys, actions: seq<Action>, p: PlanId)
    requires Execution.Inv(s) && ReviewInv(s.db) && GuardedRun(s, actions)
    requires p in s.db.approvals && PinnedPlan(s.db, p) && Reopen(p) !in actions && DispatchesApproved(s, p)
    ensures SamePin(s.db, Run(s, actions).db, p) && DispatchesApproved(Run(s, actions), p)
    decreases |actions|
  {
    hide Execution.Inv, Step, ReviewInv, Guarded;
    if actions != [] {
      var s1 := Step(s, actions[0]);
      StepKeepsInv(s, actions[0]);
      StepKeepsReview(s, actions[0]);
      StepKeepsPin(s, actions[0], p);
      StepDispatchesApproved(s, actions[0], p);
      AllPinned(s1.db);
      OnlyApprovedTextRuns(s1, actions[1..], p);
    }
  }

  lemma StepDispatchesApproved(s: Sys, a: Action, p: PlanId)
    requires p in s.db.approvals && PinnedPlan(s.db, p) && DispatchesApproved(s, p) && SamePin(s.db, Step(s, a).db, p)
    ensures DispatchesApproved(Step(s, a), p)
  {
    hide OtherStep;
  }

  /** Between the first transaction of approve and its write of decomposed, which has no guard, the approval is removed: the
      deliverables are registered all the same, and a workload runs for a plan that is not approved. */
  lemma ReopenedPlanRuns()
    ensures var decomposed := Plan(Decomposed, 1, Some("u"));
            var rows := [Deliverable("i", Pending, None, None, 1)];
            && Tables.Approve(REVIEWED, "p", APPROVAL) == Ok(APPROVED) && ReopenReview(APPROVED, "p") == REVIEWED
            && Tables.MarkDecomposed(REVIEWED, "p", "u") == REVIEWED.(plans := map["p" := decomposed])
            && RegisterDeliverables(REVIEWED.(plans := map["p" := decomposed]), "p", ["i"])
               == Ok(REVIEWED.(plans := map["p" := decomposed], items := map["p" := rows]))
            && var db := REVIEWED.(plans := map["p" := decomposed], items := map["p" := rows]);
               && ReadyToDispatch(db, "p") && NextDeliverable(db, "p") == Some(0)
               && Tables.RegisterWorkload(db, "w", "p", 0, "Pending").Ok?
               && "p" !in Tables.RegisterWorkload(db, "w", "p", 0, "Pending").value.approvals
  {
    ApproveFirst();
    assert map["p" := APPROVAL] - {"p"} == map[];
    assert APPROVED.plans["p" := APPROVED.plans["p"].(state := Review)] == REVIEWED.plans;
    var decomposed := Plan(Decomposed, 1, Some("u"));
    assert REVIEWED.plans["p" := decomposed] == map["p" := decomposed];
    assert NewRows(["i"]) == [Deliverable("i", Pending, None, None, 1)];
    assert map[]["p" := NewRows(["i"])] == map["p" := NewRows(["i"])];
    var db := REVIEWED.(plans := map["p" := decomposed], items := map["p" := NewRows(["i"])]);
    assert Rows(db, "p") == NewRows(["i"]) && Runnable(Rows(db, "p"), 0);
  }
}
