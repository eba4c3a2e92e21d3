/** The workloads table and the deliverables name each other one to one,
    for plan ids and hashes the gateway makes and runs shorter than 10^22 steps. */
module Correspondence {
  import opened Basics
  import opened Tables
  import opened Execution
  import opened PlanProgress
  import opened Naming

  function SlotName(s: Slot, hash: string, attempt: nat): string {
    WorkloadName(s.plan, hash, Some(s.index + 1), attempt)
  }

  predicate Nameable(s: Slot, hash: string, attempt: nat) {
    GatewayPlanId(s.plan) && Digest(hash) && s.index + 1 < 1000 && 1 <= attempt < ATTEMPT_LIMIT
  }

  /** What the callers of the store pass in: gateway ids, SHA-256 digests, checklists of at most 100 items,
      and for a dispatch the name foreman.py computes from what the reconciler read. */
  ghost predicate FromGateway(s: Sys, a: Action) {
    match a
    case Intake(p) => GatewayPlanId(p)
    case RecordPlan(p, _, row, _) => GatewayPlanId(p) && Digest(row.hash)
    case CommitPlan(p, _, row, _) => GatewayPlanId(p) && Digest(row.hash)
    case GithubEdit(_, _, row) => Digest(row.hash)
    case CommitEdit(_, _, row) => Digest(row.hash)
    case Register(_, urls) => |urls| <= 100
    case Dispatch(name, _) =>
      s.thread.Dispatching? ==>
        name == SlotName(s.thread.slot, s.thread.hash, s.thread.attempt)
    case _ => true
  }

  ghost predicate GatewayRun(s: Sys, actions: seq<Action>)
    decreases |actions|
  {
    actions != [] ==> FromGateway(s, actions[0]) && GatewayRun(Step(s, actions[0]), actions[1..])
  }

  ghost predicate NameFor(n: string, s: Slot, attempt: nat) {
    exists h :: Digest(h) && n == SlotName(s, h, attempt)
  }

  /** A deliverable row names a workload exactly while it has been started, and that workload names it back. */
  ghost predicate RowAgrees(db: Db, s: Slot)
    requires HasSlot(db, s)
  {
    var d := RowAt(db, s);
    && (d.workload.None? <==> d.state == Pending)
    && (d.workload.Some? ==>
          && d.workload.value in db.workloads
          && SlotOf(db, d.workload.value) == s
          && NameFor(d.workload.value, s, d.attempt))
  }

  ghost predicate WorkloadAgrees(db: Db, n: string)
    requires n in db.workloads
  {
    var s := SlotOf(db, n);
    HasSlot(db, s) && RowAt(db, s).workload == Some(n)
  }

  ghost predicate Agree(db: Db) {
    && (forall s: Slot | HasSlot(db, s) :: RowAgrees(db, s))
    && (forall n | n in db.workloads :: WorkloadAgrees(db, n))
  }

  /** Ids, hashes and counters are in the range foreman.py's names are injective on. */
  ghost predicate InRange(s: Sys, bound: nat) {
    && (forall p | p in s.db.plans :: GatewayPlanId(p))
    && (forall p | Rows(s.db, p) != [] :: p in s.db.plans && |Rows(s.db, p)| <= 100)
    && (forall key | key in s.db.versions :: Digest(s.db.versions[key].hash))
    && (forall r: Slot | HasSlot(s.db, r) :: 1 <= RowAt(s.db, r).attempt <= bound)
    && (s.thread.Dispatching? ==> Digest(s.thread.hash))
  }

  ghost predicate Sound(s: Sys, bound: nat) {
    Inv(s) && Agree(s.db) && InRange(s, bound)
  }

  // ----- ranges -----

  lemma OtherKeepsRange(s: Sys, a: Action, bound: nat)
    requires InRange(s, bound) && FromGateway(s, a) && !OfReconciler(a) && bound >= 1
    ensures InRange(Step(s, a), bound)
  {
    OtherKeepsIds(s.db, a);
    OtherKeepsHashes(s.db, a);
    OtherKeepsRowRange(s.db, a, bound);
  }

  lemma OtherKeepsIds(db: Db, a: Action)
    requires !OfReconciler(a)
    ensures var db' := OtherStep(db, a);
            && db.plans.Keys <= db'.plans.Keys
            && (forall p | p in db'.plans && p !in db.plans :: (a.Intake? || a.RecordPlan? || a.CommitPlan?) && p == a.plan)
  {
    if WritesVersion(a) {
      if OtherStep(db, a) != db {
        var plan := VersionStep(db, a);
        hide OtherStep;
      }
    } else {
      OtherLeavesQueue(db, a);
      hide RegisterDeliverables, ApprovalEventTaken;
    }
  }

  lemma OtherKeepsHashes(db: Db, a: Action)
    requires !OfReconciler(a)
    ensures forall id | id in OtherStep(db, a).versions ::
              (id in db.versions && OtherStep(db, a).versions[id] == db.versions[id])
              || (WritesVersion(a) && OtherStep(db, a).versions[id] == a.row)
  {
    if WritesVersion(a) {
      if OtherStep(db, a) != db {
        var plan := VersionStep(db, a);
        hide OtherStep;
      }
    } else {
      hide RegisterDeliverables, ApprovalEventTaken;
    }
  }

  lemma OtherOpensFresh(db: Db, a: Action)
    requires !OfReconciler(a)
    ensures forall p :: Rows(OtherStep(db, a), p) == Rows(db, p)
                        || (Rows(db, p) == [] && a == Register(p, a.urls) && p in db.plans
                            && Rows(OtherStep(db, a), p) == NewRows(a.urls))
  {
    OtherLeavesQueue(db, a);
    if a.Register? {
      hide RegisterDeliverables;
      forall p { RegisterOpensFresh(db, a.plan, a.urls, p); }
    } else {
      hide OtherStep;
    }
  }

  lemma OtherKeepsRowRange(db: Db, a: Action, bound: nat)
    requires !OfReconciler(a) && bound >= 1 && (a.Register? ==> |a.urls| <= 100)
    requires forall p | Rows(db, p) != [] :: p in db.plans && |Rows(db, p)| <= 100
    requires forall r: Slot | HasSlot(db, r) :: 1 <= RowAt(db, r).attempt <= bound
    ensures var db' := OtherStep(db, a);
            && (forall p | Rows(db', p) != [] :: p in db'.plans && |Rows(db', p)| <= 100)
            && (forall r: Slot | HasSlot(db', r) :: 1 <= RowAt(db', r).attempt <= bound)
  {
    OtherOpensFresh(db, a);
    OtherKeepsIds(db, a);
    hide OtherStep;
    var db' := OtherStep(db, a);
    forall r: Slot | HasSlot(db', r) ensures 1 <= RowAt(db', r).attempt <= bound {
      if Rows(db', r.plan) == Rows(db, r.plan) {
        assert HasSlot(db, r) && RowAt(db', r) == RowAt(db, r);
      } else {
        assert RowAt(db', r) == NewRows(a.urls)[r.index];
      }
    }
  }

  lemma PickReadsHash(s: Sys, a: Action, bound: nat)
    requires InRange(s, bound) && OfReconciler(a) && Step(s, a).thread.Dispatching?
    ensures Digest(Step(s, a).thread.hash)
  {
  }

  /** A started deliverable that moves along its lifecycle keeps the ranges, one attempt up at most. */
  lemma MoveKeepsRange(s: Sys, s': Sys, bound: nat, slot: Slot, d: Deliverable)
    requires InRange(s, bound) && Moved(s.db, s'.db, slot, d) && Lifecycle(RowAt(s.db, slot), d)
    requires s'.thread.Dispatching? ==> Digest(s'.thread.hash)
    ensures InRange(s', bound + 1)
  {
    forall r: Slot | HasSlot(s'.db, r) ensures 1 <= RowAt(s'.db, r).attempt <= bound + 1 {
      assert HasSlot(s.db, r);
    }
    forall p | Rows(s'.db, p) != [] ensures p in s'.db.plans && |Rows(s'.db, p)| <= 100 {
      assert |Rows(s.db, p)| == |Rows(s'.db, p)|;
    }
  }

  lemma ReconcilerKeepsRange(s: Sys, a: Action, bound: nat)
    requires Inv(s) && InRange(s, bound) && OfReconciler(a)
    ensures InRange(Step(s, a), bound + 1)
  {
    var s' := Step(s, a);
    if s'.thread.Dispatching? { PickReadsHash(s, a, bound); }
    ReconcilerFollows(s, a);
    if s'.db != s.db {
      var slot :| OneFollows(s.db, s'.db, slot);
      var d :| Moved(s.db, s'.db, slot, d) && Lifecycle(RowAt(s.db, slot), d);
      MoveKeepsRange(s, s', bound, slot, d);
    }
  }

  // ----- agreement -----

  /** The deliverables change neither their bindings nor whether they were started; fresh rows are unbound. */
  ghost predicate BindingsKept(db: Db, db': Db) {
    && db'.workloads.Keys == db.workloads.Keys
    && (forall n | n in db.workloads :: SlotOf(db', n) == SlotOf(db, n))
    && (forall s: Slot | HasSlot(db, s) ::
          && HasSlot(db', s)
          && RowAt(db', s).workload == RowAt(db, s).workload
          && RowAt(db', s).attempt == RowAt(db, s).attempt
          && (RowAt(db', s).state == Pending <==> RowAt(db, s).state == Pending))
    && (forall s: Slot | HasSlot(db', s) && !HasSlot(db, s) ::
          RowAt(db', s).workload.None? && RowAt(db', s).state == Pending)
  }

  lemma BindingsKeptAgree(db: Db, db': Db)
    requires Agree(db) && BindingsKept(db, db')
    ensures Agree(db')
  {
    forall s: Slot | HasSlot(db', s) ensures RowAgrees(db', s) {
      if HasSlot(db, s) { assert RowAgrees(db, s); }
    }
    forall n | n in db'.workloads ensures WorkloadAgrees(db', n) {
      assert WorkloadAgrees(db, n);
    }
  }

  lemma OtherKeepsBindings(db: Db, a: Action)
    requires !OfReconciler(a)
    ensures BindingsKept(db, OtherStep(db, a))
  {
    OtherKeepsRows(db, a);
    OtherOpensFresh(db, a);
    hide OtherStep;
    var db' := OtherStep(db, a);
    forall s: Slot | HasSlot(db', s) && !HasSlot(db, s)
      ensures RowAt(db', s).workload.None? && RowAt(db', s).state == Pending
    {
      assert Rows(db', s.plan) == NewRows(a.urls);
    }
    forall s: Slot | HasSlot(db, s) ensures HasSlot(db', s) && RowAt(db', s) == RowAt(db, s) {
      assert Rows(db, s.plan) == Rows(db', s.plan);
    }
  }

  lemma MovedKeepsBindings(db: Db, db': Db, s: Slot, d: Deliverable)
    requires Moved(db, db', s, d) && db'.workloads == db.workloads
    requires var was := RowAt(db, s);
             d.workload == was.workload && d.attempt == was.attempt && d.state != Pending && was.state != Pending
    ensures BindingsKept(db, db')
  {
  }

  lemma FailKeepsBindings(db: Db, s: Slot)
    requires At(db, s, Active)
    ensures BindingsKept(db, FailDeliverable(db, s.plan, s.index))
  {
    FailMoves(db, s);
    hide FailDeliverable;
    MovedKeepsBindings(db, FailDeliverable(db, s.plan, s.index), s, RowAt(db, s).(state := Broken));
  }

  lemma BeginKeepsBindings(db: Db, s: Slot, pull: PullRequest)
    requires At(db, s, Active)
    ensures BindingsKept(db, BeginMerge(db, s.plan, s.index, pull))
  {
    BeginMergeMoves(db, s, pull);
    hide BeginMerge;
    MovedKeepsBindings(db, BeginMerge(db, s.plan, s.index, pull), s,
                       RowAt(db, s).(state := MergePending, pull := Some(pull)));
  }

  lemma FinishKeepsBindings(db: Db, s: Slot, merged: bool)
    requires At(db, s, MergePending)
    ensures BindingsKept(db, FinishMerge(db, s.plan, s.index, merged))
  {
    FinishMoves(db, s, merged);
    hide FinishMerge;
    MovedKeepsBindings(db, FinishMerge(db, s.plan, s.index, merged), s,
                       RowAt(db, s).(state := if merged then Merged else Broken));
  }

  lemma ScanKeepsBindings(s: Sys, a: Action)
    requires Inv(s) && (a.ScanFail? || a.ScanMerge?) && s.thread.Scanning? && s.thread.todo != []
    ensures BindingsKept(s.db, Step(s, a).db)
  {
    hide BindingsKept, FailDeliverable, BeginMerge, Inv;
    ScanHead(s);
    hide At;
    if a.ScanFail? {
      FailKeepsBindings(s.db, s.thread.todo[0]);
    } else {
      BeginKeepsBindings(s.db, s.thread.todo[0], a.pull);
    }
  }

  lemma ScanHead(s: Sys)
    requires Inv(s) && s.thread.Scanning? && s.thread.todo != []
    ensures At(s.db, s.thread.todo[0], Active)
  {
    HeadAndTail(s.db, s.thread.todo, Active);
  }

  lemma PollKeepsBindings(s: Sys, merged: bool)
    requires Inv(s) && s.thread.Polling? && s.thread.todo != []
    ensures BindingsKept(s.db, Step(s, PollFinish(merged)).db)
  {
    hide BindingsKept, FinishMerge, Inv;
    PollHead(s);
    hide At;
    FinishKeepsBindings(s.db, s.thread.todo[0], merged);
  }

  lemma PollHead(s: Sys)
    requires Inv(s) && s.thread.Polling? && s.thread.todo != []
    ensures At(s.db, s.thread.todo[0], MergePending)
  {
    HeadAndTail(s.db, s.thread.todo, MergePending);
  }

  lemma MergeAtOnceKeepsBindings(s: Sys)
    requires Inv(s) && s.thread.Merging?
    ensures BindingsKept(s.db, Step(s, MergeAtOnce).db)
  {
    assert At(s.db, s.thread.slot, MergePending);
    hide BindingsKept, FinishMerge, Inv;
    FinishKeepsBindings(s.db, s.thread.slot, true);
  }

  /** Reviewing, merging and failing keep every binding. */
  lemma ProgressKeepsBindings(s: Sys, a: Action)
    requires Inv(s) && OfReconciler(a) && !a.Dispatch? && !a.Retry?
    ensures BindingsKept(s.db, Step(s, a).db)
  {
    hide Inv, BindingsKept, FailDeliverable, BeginMerge, FinishMerge;
    if (a.ScanFail? || a.ScanMerge?) && s.thread.Scanning? && s.thread.todo != [] {
      ScanKeepsBindings(s, a);
    } else if a.PollFinish? && s.thread.Polling? && s.thread.todo != [] {
      PollKeepsBindings(s, a.merged);
    } else if a.MergeAtOnce? && s.thread.Merging? {
      MergeAtOnceKeepsBindings(s);
    } else {
      SameBindings(s.db);
    }
  }

  lemma SameBindings(db: Db)
    ensures BindingsKept(db, db)
  {
  }

  /** What the reconciler is about to dispatch is in the range names are injective on. */
  lemma DispatchInRange(s: Sys, b: nat)
    requires Sound(s, b) && b < ATTEMPT_LIMIT && s.thread.Dispatching?
    ensures Nameable(s.thread.slot, s.thread.hash, s.thread.attempt) && s.thread.slot.plan in s.db.plans
  {
    assert HasSlot(s.db, s.thread.slot);
  }

  lemma DispatchSlotIsFree(s: Sys, b: nat, n: string)
    requires Sound(s, b) && s.thread.Dispatching? && n in s.db.workloads
    ensures SlotOf(s.db, n) != s.thread.slot
  {
    assert WorkloadAgrees(s.db, n);
    assert HasSlot(s.db, s.thread.slot) && RowAgrees(s.db, s.thread.slot);
  }

  lemma WorkloadInRange(s: Sys, b: nat, n: string) returns (hash: string, attempt: nat)
    requires Sound(s, b) && b < ATTEMPT_LIMIT && n in s.db.workloads
    ensures Nameable(SlotOf(s.db, n), hash, attempt) && n == SlotName(SlotOf(s.db, n), hash, attempt)
  {
    var t := SlotOf(s.db, n);
    assert WorkloadAgrees(s.db, n);
    assert RowAgrees(s.db, t);
    attempt := RowAt(s.db, t).attempt;
    hash :| Digest(hash) && n == SlotName(t, hash, attempt);
  }

  lemma NamesApart(s: Slot, h: string, a: nat, t: Slot, g: string, b: nat)
    requires Nameable(s, h, a) && Nameable(t, g, b) && (s, a) != (t, b)
    ensures SlotName(s, h, a) != SlotName(t, g, b)
  {
    hide WorkloadName, GatewayPlanId, Digest;
    if SlotName(s, h, a) == SlotName(t, g, b) {
      NamesInjective(s.plan, h, s.index + 1, a, t.plan, g, t.index + 1, b);
    }
  }

  lemma NameIsUnused(s: Sys, name: string, phase: string, bound: nat, n: string)
    requires Sound(s, bound) && bound < ATTEMPT_LIMIT && s.thread.Dispatching? && FromGateway(s, Dispatch(name, phase))
    requires n in s.db.workloads
    ensures n != name
  {
    hide Sound, SlotName, Nameable;
    DispatchInRange(s, bound);
    DispatchSlotIsFree(s, bound, n);
    var hash, attempt := WorkloadInRange(s, bound, n);
    NamesApart(s.thread.slot, s.thread.hash, s.thread.attempt, SlotOf(s.db, n), hash, attempt);
  }

  /** The name of a pending row's next attempt is in no workload row, and its slot is free. */
  lemma DispatchIsFresh(s: Sys, name: string, phase: string, bound: nat)
    requires Sound(s, bound) && bound < ATTEMPT_LIMIT && s.thread.Dispatching? && FromGateway(s, Dispatch(name, phase))
    ensures name !in s.db.workloads && !SlotTaken(s.db, s.thread.slot.plan, s.thread.slot.index)
    ensures RegisterWorkload(s.db, name, s.thread.slot.plan, s.thread.slot.index, phase).Ok?
  {
    DispatchInRange(s, bound);
    forall n | n in s.db.workloads ensures SlotOf(s.db, n) != s.thread.slot && n != name {
      DispatchSlotIsFree(s, bound, n);
      NameIsUnused(s, name, phase, bound, n);
    }
    hide Sound, FromGateway, SlotName;
  }

  /** Moved, seen row by row. */
  ghost predicate OneRow(db: Db, db': Db, s: Slot, d: Deliverable) {
    && HasSlot(db, s)
    && (forall r: Slot :: HasSlot(db', r) <==> HasSlot(db, r))
    && (forall r: Slot | HasSlot(db', r) :: RowAt(db', r) == if r == s then d else RowAt(db, r))
  }

  lemma MovedIsOneRow(db: Db, db': Db, s: Slot, d: Deliverable)
    requires Moved(db, db', s, d)
    ensures OneRow(db, db', s, d)
  {
  }

  lemma BindKeepsAgree(db: Db, db': Db, s: Slot, d: Deliverable, name: string)
    requires Agree(db) && OneRow(db, db', s, d) && RowAt(db, s).state == Pending
    requires d.workload == Some(name) && d.state != Pending && NameFor(name, s, d.attempt) && name !in db.workloads
    requires db'.workloads.Keys == db.workloads.Keys + {name} && SlotOf(db', name) == s
    requires forall n | n in db.workloads :: SlotOf(db', n) == SlotOf(db, n)
    ensures Agree(db')
  {
    hide HasSlot, RowAt;
    forall r: Slot | HasSlot(db', r) ensures RowAgrees(db', r) {
      assert RowAgrees(db, r);
    }
    forall n | n in db'.workloads ensures WorkloadAgrees(db', n) {
      if n != name {
        assert WorkloadAgrees(db, n);
        assert RowAgrees(db, s);
      }
    }
  }

  lemma UnbindKeepsAgree(db: Db, db': Db, s: Slot, d: Deliverable, name: string)
    requires Agree(db) && OneRow(db, db', s, d) && RowAt(db, s).workload == Some(name)
    requires d.workload.None? && d.state == Pending
    requires db'.workloads.Keys == db.workloads.Keys - {name}
    requires forall n | n in db'.workloads :: SlotOf(db', n) == SlotOf(db, n)
    ensures Agree(db')
  {
    hide HasSlot, RowAt, NameFor;
    assert RowAgrees(db, s) && SlotOf(db, name) == s;
    forall r: Slot | HasSlot(db', r) ensures RowAgrees(db', r) {
      assert HasSlot(db, r) && RowAgrees(db, r);
    }
    forall n | n in db'.workloads ensures WorkloadAgrees(db', n) {
      assert n in db.workloads && n != name;
      assert WorkloadAgrees(db, n);
      assert SlotOf(db, n) != s;
    }
  }

  lemma DispatchingIsPending(s: Sys)
    requires Inv(s) && s.thread.Dispatching?
    ensures At(s.db, s.thread.slot, Pending) && RowAt(s.db, s.thread.slot).attempt == s.thread.attempt
  {
  }

  lemma DispatchNamesSlot(s: Sys, name: string, phase: string, bound: nat)
    requires Sound(s, bound) && bound < ATTEMPT_LIMIT && s.thread.Dispatching? && FromGateway(s, Dispatch(name, phase))
    ensures NameFor(name, s.thread.slot, s.thread.attempt)
  {
    hide Sound, SlotName, GatewayPlanId, Digest;
    DispatchInRange(s, bound);
  }

  lemma DispatchKeepsAgree(s: Sys, name: string, phase: string, bound: nat)
    requires Sound(s, bound) && bound < ATTEMPT_LIMIT && FromGateway(s, Dispatch(name, phase))
    ensures Agree(Step(s, Dispatch(name, phase)).db)
  {
    assert Inv(s) && Agree(s.db);
    hide Sound, Inv, FromGateway, NameFor, SlotTaken, Agree, RegisterWorkload, HasSlot, SlotName;
    if s.thread.Dispatching? {
      DispatchIsFresh(s, name, phase, bound);
      DispatchNamesSlot(s, name, phase, bound);
      DispatchingIsPending(s);
      RegisterKeepsAgree(s.db, s.thread.slot, name, phase);
    }
  }

  lemma RegisterKeepsAgree(db: Db, s: Slot, name: string, phase: string)
    requires Agree(db) && At(db, s, Pending) && NameFor(name, s, RowAt(db, s).attempt) && name !in db.workloads
    requires RegisterWorkload(db, name, s.plan, s.index, phase).Ok?
    ensures Agree(RegisterWorkload(db, name, s.plan, s.index, phase).value)
  {
    hide Agree, NameFor, RegisterWorkload, OneRow;
    var db', d := RegisterWorkload(db, name, s.plan, s.index, phase).value,
                  RowAt(db, s).(state := Active, workload := Some(name));
    RegisterMoves(db, s, name, phase);
    MovedIsOneRow(db, db', s, d);
    BindKeepsAgree(db, db', s, d, name);
  }

  lemma RetryKeepsAgree(s: Sys, p: PlanId, url: string)
    requires Inv(s) && Agree(s.db)
    ensures Agree(Step(s, Retry(p, url)).db)
  {
    hide Inv, Agree, PrepareRetry;
    if s.thread.Idle? && PrepareRetry(s.db, p, url).Ok? { ResetKeepsAgree(s.db, p, url); }
  }

  lemma ResetKeepsAgree(db: Db, p: PlanId, url: string)
    requires Agree(db) && PrepareRetry(db, p, url).Ok?
    ensures Agree(PrepareRetry(db, p, url).value)
  {
    RetryMoves(db, p, url);
    hide PrepareRetry, Moved, OneRow, NameFor, FindUrl;
    var slot := Slot(p, FindUrl(Rows(db, p), url, 0).value);
    assert RowAgrees(db, slot);
    MovedIsOneRow(db, PrepareRetry(db, p, url).value, slot, RetryRow(RowAt(db, slot)));
    hide Agree, RowAgrees;
    UnbindKeepsAgree(db, PrepareRetry(db, p, url).value, slot, RetryRow(RowAt(db, slot)), RowAt(db, slot).workload.value);
  }

  lemma StepKeepsSound(s: Sys, a: Action, bound: nat)
    requires Sound(s, bound) && 1 <= bound < ATTEMPT_LIMIT && FromGateway(s, a)
    ensures Sound(Step(s, a), bound + 1)
  {
    StepKeepsInv(s, a);
    hide Inv, InRange, Agree, FromGateway, BindingsKept;
    if !OfReconciler(a) {
      OtherKeepsRange(s, a, bound);
      OtherKeepsBindings(s.db, a);
      BindingsKeptAgree(s.db, Step(s, a).db);
    } else {
      ReconcilerKeepsRange(s, a, bound);
      match a
      case Dispatch(name, phase) => DispatchKeepsAgree(s, name, phase, bound);
      case Retry(p, url) => RetryKeepsAgree(s, p, url);
      case _ => ProgressKeepsBindings(s, a); BindingsKeptAgree(s.db, Step(s, a).db);
    }
  }

  lemma {:induction false} RunKeepsSound(s: Sys, actions: seq<Action>, bound: nat)
    requires Sound(s, bound) && bound >= 1 && GatewayRun(s, actions) && bound + |actions| <= ATTEMPT_LIMIT
    ensures Sound(Run(s, actions), bound + |actions|)
    decreases |actions|
  {
    if actions != [] {
      StepKeepsSound(s, actions[0], bound);
      RunKeepsSound(Step(s, actions[0]), actions[1..], bound + 1);
    }
  }

  lemma InitialSound()
    ensures Sound(INITIAL, 1)
  {
  }

  // ----- main results -----

  /** One to one on (plan, position): every started deliverable has its own workload row and conversely. */
  lemma WorkloadsMatchDeliverables(actions: seq<Action>, s: Slot, n: string)
    requires GatewayRun(INITIAL, actions) && |actions| < ATTEMPT_LIMIT
    ensures var db := Run(INITIAL, actions).db;
            && ((HasSlot(db, s) && RowAt(db, s).workload == Some(n)) <==> (n in db.workloads && SlotOf(db, n) == s))
            && (HasSlot(db, s) ==> (RowAt(db, s).workload.None? <==> RowAt(db, s).state == Pending))
  {
    hide Run, GatewayRun, Sound;
    InitialSound();
    RunKeepsSound(INITIAL, actions, 1);
    NameEachOther(Run(INITIAL, actions), 1 + |actions|, s, n);
  }

  lemma NameEachOther(t: Sys, bound: nat, s: Slot, n: string)
    requires Sound(t, bound)
    ensures (HasSlot(t.db, s) && RowAt(t.db, s).workload == Some(n)) <==> (n in t.db.workloads && SlotOf(t.db, n) == s)
    ensures HasSlot(t.db, s) ==> (RowAt(t.db, s).workload.None? <==> RowAt(t.db, s).state == Pending)
  {
    hide Inv, InRange, NameFor;
    if HasSlot(t.db, s) { assert RowAgrees(t.db, s); }
    if n in t.db.workloads { assert WorkloadAgrees(t.db, n); }
  }

  /** The insert of a dispatch never meets UNIQUE(plan_id, deliverable_position), nor an existing name. */
  lemma DispatchNeverClashes(actions: seq<Action>, name: string, phase: string)
    requires GatewayRun(INITIAL, actions) && |actions| + 1 < ATTEMPT_LIMIT
    requires Run(INITIAL, actions).thread.Dispatching?
    requires FromGateway(Run(INITIAL, actions), Dispatch(name, phase))
    ensures var s := Run(INITIAL, actions);
            && name !in s.db.workloads
            && RegisterWorkload(s.db, name, s.thread.slot.plan, s.thread.slot.index, phase).Ok?
  {
    hide Step, FromGateway, RegisterWorkload, Run, GatewayRun;
    InitialSound();
    RunKeepsSound(INITIAL, actions, 1);
    DispatchIsFresh(Run(INITIAL, actions), name, phase, 1 + |actions|);
  }

  /** Started since attempt a: a later dispatch of the row belongs to a later attempt. */
  predicate StartedSince(d: Deliverable, a: nat) {
    d.attempt > a || (d.attempt == a && d.state != Pending)
  }

  lemma {:induction false} StartedStays(s: Sys, actions: seq<Action>, slot: Slot, a: nat)
    requires Inv(s) && HasSlot(s.db, slot) && StartedSince(RowAt(s.db, slot), a)
    ensures HasSlot(Run(s, actions).db, slot) && StartedSince(RowAt(Run(s, actions).db, slot), a)
    decreases |actions|
  {
    if actions != [] {
      StepKeepsInv(s, actions[0]);
      StepFollowsLifecycle(s, actions[0], slot.plan);
      StartedStays(Step(s, actions[0]), actions[1..], slot, a);
    }
  }

  /** Between two dispatches of one row lies a retry, which counts the attempt up. */
  lemma AttemptsGrow(s: Sys, name: string, phase: string, between: seq<Action>)
    requires Inv(s) && s.thread.Dispatching?
    requires RegisterWorkload(s.db, name, s.thread.slot.plan, s.thread.slot.index, phase).Ok?
    ensures var t := Run(Step(s, Dispatch(name, phase)), between);
            Inv(t) && (t.thread.Dispatching? && t.thread.slot == s.thread.slot ==> t.thread.attempt > s.thread.attempt)
  {
    AfterDispatch(s, name, phase);
    hide Step, Run, RegisterWorkload;
    var s1 := Step(s, Dispatch(name, phase));
    RunKeepsInv(s1, between);
    StartedStays(s1, between, s.thread.slot, s.thread.attempt);
  }

  lemma AfterDispatch(s: Sys, name: string, phase: string)
    requires Inv(s) && s.thread.Dispatching?
    requires RegisterWorkload(s.db, name, s.thread.slot.plan, s.thread.slot.index, phase).Ok?
    ensures var s1 := Step(s, Dispatch(name, phase));
            Inv(s1) && HasSlot(s1.db, s.thread.slot) && StartedSince(RowAt(s1.db, s.thread.slot), s.thread.attempt)
  {
    StepKeepsInv(s, Dispatch(name, phase));
    DispatchingIsPending(s);
    RegisterMoves(s.db, s.thread.slot, name, phase);
    hide Inv, RegisterWorkload;
  }

  lemma AttemptsNameApart(s: Sys, b: nat, name: string, t: Sys, c: nat, again: string, phase: string)
    requires Sound(s, b) && b < ATTEMPT_LIMIT && s.thread.Dispatching? && FromGateway(s, Dispatch(name, phase))
    requires Sound(t, c) && c < ATTEMPT_LIMIT && t.thread.Dispatching? && FromGateway(t, Dispatch(again, phase))
    requires s.thread.slot == t.thread.slot && s.thread.attempt != t.thread.attempt
    ensures again != name
  {
    hide Sound, SlotName, Nameable;
    DispatchInRange(s, b);
    DispatchInRange(t, c);
    NamesApart(s.thread.slot, s.thread.hash, s.thread.attempt, t.thread.slot, t.thread.hash, t.thread.attempt);
  }

  /** Two dispatches of the same deliverable in one run use different names: a retry never reuses one. */
  lemma RetriesGetNewNames(before: seq<Action>, name: string, phase: string, between: seq<Action>, again: string)
    requires GatewayRun(INITIAL, before) && |before| + 1 + |between| < ATTEMPT_LIMIT - 1
    requires var s := Run(INITIAL, before);
             && s.thread.Dispatching? && FromGateway(s, Dispatch(name, phase))
             && GatewayRun(Step(s, Dispatch(name, phase)), between)
             && var t := Run(Step(s, Dispatch(name, phase)), between);
                t.thread.Dispatching? && t.thread.slot == s.thread.slot && FromGateway(t, Dispatch(again, phase))
    ensures again != name
  {
    hide FromGateway, Run, GatewayRun, Step, RegisterWorkload, Inv, Agree, InRange;
    var s := Run(INITIAL, before);
    InitialSound();
    RunKeepsSound(INITIAL, before, 1);
    DispatchIsFresh(s, name, phase, 1 + |before|);
    StepKeepsSound(s, Dispatch(name, phase), 1 + |before|);
    var s1 := Step(s, Dispatch(name, phase));
    RunKeepsSound(s1, between, 2 + |before|);
    AttemptsGrow(s, name, phase, between);
    AttemptsNameApart(s, 1 + |before|, name, Run(s1, between), 2 + |before| + |between|, again, phase);
  }
}
