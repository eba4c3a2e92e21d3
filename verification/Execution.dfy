/** Execution of approved plans as interleaved atomic steps.
    The reconciler thread (matrix.py reconcile_once, then luna.py) is a program counter; it can die at any point.
    Owner commands, webhooks and approvals are steps of other threads, possible between any two of its steps. */
module Execution {
  import opened Basics
  import opened Tables

  datatype Slot = Slot(plan: PlanId, index: nat)

  /** What the reconciler thread carries between transactions. */
  datatype Thread =
    | Idle
    | Scanning(todo: seq<Slot>)
    | Merging(slot: Slot, todo: seq<Slot>)
    | Polling(todo: seq<Slot>)
    | Dispatching(slot: Slot, hash: string, attempt: nat)

  datatype Sys = Sys(db: Db, thread: Thread)

  datatype Action =
    // Steps of the HTTP threads. RecordPlan and GithubEdit hold guards and commit together, CommitPlan and CommitEdit
    // are the commits alone, at any later time;
    // Approve, MarkDecomposed and Register are the three transactions of one approval.
    | Intake(plan: PlanId)
    | RecordPlan(plan: PlanId, version: nat, row: Version, url: string)
    | CommitPlan(plan: PlanId, version: nat, row: Version, url: string)
    | GithubEdit(plan: PlanId, url: string, row: Version)
    | CommitEdit(plan: PlanId, version: nat, row: Version)
    | Approve(plan: PlanId, approval: Approval)
    | MarkDecomposed(plan: PlanId, url: string)
    | Register(plan: PlanId, urls: seq<string>)
    | Reopen(plan: PlanId)
    | Pause(plan: PlanId)
    | Resume(plan: PlanId)
    | SetPlanState(plan: PlanId, state: PlanState)
    | ExhaustTurn(plan: PlanId)
    | Refresh(name: string, phase: string)
    // Steps of the reconciler thread.
    | Scan(names: seq<string>)
    | ScanNext
    | ScanFail
    | ScanMerge(pull: PullRequest, atOnce: bool)
    | MergeAtOnce
    | Poll(slots: seq<Slot>)
    | PollNext
    | PollFinish(merged: bool)
    | PollDone
    | Pick(plan: PlanId)
    | Dispatch(name: string, phase: string)
    | Retry(plan: PlanId, url: string)
    | Crash

  const INITIAL := Sys(EMPTY, Idle)

  predicate HasSlot(db: Db, s: Slot) { HasRow(db, s.plan, s.index) }

  function RowAt(db: Db, s: Slot): Deliverable
    requires HasSlot(db, s)
  {
    Rows(db, s.plan)[s.index]
  }

  predicate At(db: Db, s: Slot, state: ItemState) { HasSlot(db, s) && RowAt(db, s).state == state }

  /** One row of active_workloads. */
  predicate ActiveWorkload(db: Db, name: string) {
    && name in db.workloads
    && var w := db.workloads[name];
       w.plan in db.plans && db.plans[w.plan].state in {PlanState.Running, NeedsInput} && At(db, Slot(w.plan, w.index), Active)
  }

  ghost predicate ListsActive(db: Db, names: seq<string>) {
    && Distinct(names)
    && (forall n :: n in names <==> ActiveWorkload(db, n))
  }

  predicate DistinctSlots(slots: seq<Slot>) {
    forall i, j | 0 <= i < j < |slots| :: slots[i] != slots[j]
  }

  /** The rows of pending_merges. */
  ghost predicate ListsPendingMerges(db: Db, slots: seq<Slot>) {
    && DistinctSlots(slots)
    && (forall s :: s in slots <==> At(db, s, MergePending))
  }

  function SlotOf(db: Db, name: string): Slot
    requires name in db.workloads
  {
    Slot(db.workloads[name].plan, db.workloads[name].index)
  }

  function SlotsOf(db: Db, names: seq<string>): seq<Slot>
    requires forall n | n in names :: n in db.workloads
  {
    seq(|names|, i requires 0 <= i < |names| => SlotOf(db, names[i]))
  }

  function Commit(db: Db, r: Result<Db, Refusal>): Db {
    if r.Ok? then r.value else db
  }

  function CurrentHash(db: Db, p: PlanId): Option<string> {
    if p in db.plans && VersionId(p, db.plans[p].version) in db.versions
    then Some(db.versions[VersionId(p, db.plans[p].version)].hash)
    else None
  }

  /** The steps of every thread but the reconciler; they see only the tables. */
  function OtherStep(db: Db, a: Action): Db {
    match a
    case Intake(p) => BeginIntake(db, p)
    case RecordPlan(p, v, row, url) => Commit(db, Tables.RecordPlan(db, p, v, row, url))
    case CommitPlan(p, v, row, url) => Commit(db, Tables.CommitPlan(db, p, v, row, url))
    case GithubEdit(p, url, row) => Commit(db, RecordGithubEdit(db, p, url, row))
    case CommitEdit(p, v, row) => Commit(db, Tables.CommitEdit(db, p, v, row))
    case Approve(p, approval) => Commit(db, Tables.Approve(db, p, approval))
    case MarkDecomposed(p, url) => Tables.MarkDecomposed(db, p, url)
    case Register(p, urls) => Commit(db, RegisterDeliverables(db, p, urls))
    case Reopen(p) => ReopenReview(db, p)
    case Pause(p) => Commit(db, PausePlan(db, p))
    case Resume(p) => ResumePlan(db, p)
    case SetPlanState(p, st) => if st in {Completed, Paused} then db else SetState(db, p, st)
    case ExhaustTurn(p) => Tables.ExhaustTurn(db, p)
    case Refresh(name, phase) => UpdateWorkload(db, name, phase)
    case _ => db
  }

  predicate OfReconciler(a: Action) {
    || a.Scan? || a.ScanNext? || a.ScanFail? || a.ScanMerge? || a.MergeAtOnce? || a.Poll? || a.PollNext?
    || a.PollFinish? || a.PollDone? || a.Pick? || a.Dispatch? || a.Retry? || a.Crash?
  }

  /** A step of the reconciler; one that its program counter does not allow changes nothing. */
  ghost function ReconcilerStep(s: Sys, a: Action): Sys {
    var db, t := s.db, s.thread;
    match a
    case Scan(names) =>
      if t.Idle? && ListsActive(db, names) then Sys(db, Scanning(SlotsOf(db, names))) else s
    case ScanNext =>
      if t.Scanning? && t.todo != [] then Sys(db, Scanning(t.todo[1..])) else s
    case ScanFail =>
      if t.Scanning? && t.todo != []
      then Sys(FailDeliverable(db, t.todo[0].plan, t.todo[0].index), Scanning(t.todo[1..]))
      else s
    case ScanMerge(pull, atOnce) =>
      if t.Scanning? && t.todo != []
      then Sys(BeginMerge(db, t.todo[0].plan, t.todo[0].index, pull),
               if atOnce then Merging(t.todo[0], t.todo[1..]) else Scanning(t.todo[1..]))
      else s
    case MergeAtOnce =>
      if t.Merging? then Sys(FinishMerge(db, t.slot.plan, t.slot.index, true), Scanning(t.todo)) else s
    case Poll(slots) =>
      if t == Scanning([]) && ListsPendingMerges(db, slots) then Sys(db, Polling(slots)) else s
    case PollNext =>
      if t.Polling? && t.todo != [] then Sys(db, Polling(t.todo[1..])) else s
    case PollFinish(merged) =>
      if t.Polling? && t.todo != []
      then Sys(FinishMerge(db, t.todo[0].plan, t.todo[0].index, merged), Polling(t.todo[1..]))
      else s
    case PollDone => if t == Polling([]) then Sys(db, Idle) else s
    case Pick(p) =>
      var next := NextDeliverable(db, p);
      if t.Idle? && next.Some? && CurrentHash(db, p).Some?
      then Sys(db, Dispatching(Slot(p, next.value), CurrentHash(db, p).value, Rows(db, p)[next.value].attempt))
      else s
    case Dispatch(name, phase) =>
      if t.Dispatching?
      then Sys(Commit(db, RegisterWorkload(db, name, t.slot.plan, t.slot.index, phase)), Idle)
      else s
    case Retry(p, url) => if t.Idle? then Sys(Commit(db, PrepareRetry(db, p, url)), Idle) else s
    case Crash => Sys(db, Idle)
    case _ => s
  }

  ghost function Step(s: Sys, a: Action): Sys {
    if OfReconciler(a) then ReconcilerStep(s, a) else Sys(OtherStep(s.db, a), s.thread)
  }

  ghost function Run(s: Sys, actions: seq<Action>): Sys
    decreases |actions|
  {
    if actions == [] then s else Run(Step(s, actions[0]), actions[1..])
  }

  lemma {:induction false} RunAppend(s: Sys, first: seq<Action>, more: seq<Action>)
    ensures Run(s, first + more) == Run(Run(s, first), more)
    decreases |first|
  {
    hide Step;
    if first == [] {
      assert first + more == more;
    } else {
      assert (first + more)[1..] == first[1..] + more;
      RunAppend(Step(s, first[0]), first[1..], more);
    }
  }

  lemma RunOne(s: Sys, a: Action)
    ensures Run(s, [a]) == Step(s, a)
  {
    hide Step;
    assert [a][1..] == [];
    assert Run(Step(s, a), []) == Step(s, a);
  }

  // ----- invariants -----

  /** Behind a deliverable that is not merged everything waits. */
  predicate SerialRows(rows: seq<Deliverable>) {
    forall i, j | 0 <= i < j < |rows| :: rows[i].state != Merged ==> rows[j].state == Pending
  }

  ghost predicate Serial(db: Db) { forall p | p in db.items :: SerialRows(db.items[p]) }

  /** UNIQUE(plan_id, deliverable_position) on workloads. */
  ghost predicate UniqueSlots(db: Db) {
    forall m, n | m in db.workloads && n in db.workloads && SlotOf(db, m) == SlotOf(db, n) :: m == n
  }

  predicate Finished(db: Db, p: PlanId) { Rows(db, p) != [] && AllMerged(Rows(db, p)) }

  /** A plan that is completed, or would be once resumed, has every deliverable merged. */
  ghost predicate CompletedIsMerged(db: Db) {
    && (forall p | p in db.plans && db.plans[p].state == Completed :: Finished(db, p))
    && (forall p | p in db.controls && db.controls[p] == Completed :: Finished(db, p))
  }

  ghost predicate AllAt(db: Db, slots: seq<Slot>, state: ItemState) {
    DistinctSlots(slots) && forall i | 0 <= i < |slots| :: At(db, slots[i], state)
  }

  /** What the reconciler read earlier is still true of the tables. */
  ghost predicate StillHolds(db: Db, t: Thread) {
    match t
    case Idle => true
    case Scanning(todo) => AllAt(db, todo, Active)
    case Merging(slot, todo) => At(db, slot, MergePending) && AllAt(db, todo, Active)
    case Polling(todo) => AllAt(db, todo, MergePending)
    case Dispatching(slot, hash, attempt) =>
      Runnable(Rows(db, slot.plan), slot.index) && Rows(db, slot.plan)[slot.index].attempt == attempt
  }

  ghost predicate Inv(s: Sys) {
    Serial(s.db) && UniqueSlots(s.db) && CompletedIsMerged(s.db) && StillHolds(s.db, s.thread)
  }

  // ----- the other threads -----

  /** Other threads never touch an existing deliverable row; at most they open a plan with fresh rows. */
  ghost predicate RowsKept(db: Db, db': Db) {
    forall p :: Rows(db, p) == Rows(db', p) || (Rows(db, p) == [] && forall d | d in Rows(db', p) :: d.state == Pending)
  }

  /** The steps that store a plan version. */
  predicate WritesVersion(a: Action) {
    a.RecordPlan? || a.CommitPlan? || a.GithubEdit? || a.CommitEdit?
  }

  /** Such a step, if it does anything, stores its row as the new current version of a plan back in review. */
  lemma VersionStep(db: Db, a: Action) returns (plan: Plan)
    requires WritesVersion(a) && OtherStep(db, a) != db
    ensures OtherStep(db, a)
         == db.(plans := db.plans[a.plan := plan], versions := db.versions[VersionId(a.plan, plan.version) := a.row])
    ensures plan.state == Review
    ensures VersionId(a.plan, plan.version) !in db.versions
    ensures forall id | id in db.versions :: db.versions[id].hash != a.row.hash
    ensures a.RecordPlan? || a.CommitPlan? || a.CommitEdit? ==> plan.version == a.version
    ensures a.CommitEdit? ==> a.plan in db.plans
    ensures a.RecordPlan? && a.plan in db.plans ==> plan.version > db.plans[a.plan].version && Reviewable(db.plans[a.plan].state)
    ensures a.GithubEdit? ==> a.plan in db.plans && plan.version == db.plans[a.plan].version + 1 && a.plan !in db.approvals
  {
    plan := if a.GithubEdit? then db.plans[a.plan].(state := Review, version := db.plans[a.plan].version + 1)
            else if a.CommitEdit? then db.plans[a.plan].(state := Review, version := a.version)
            else Plan(Review, a.version, Some(a.url));
  }

  /** Only opening a plan touches deliverables, only a refresh touches workloads, and neither touches anything else. */
  lemma OtherLeavesQueue(db: Db, a: Action)
    requires !OfReconciler(a)
    ensures !a.Register? ==> OtherStep(db, a).items == db.items
    ensures !a.Refresh? ==> OtherStep(db, a).workloads == db.workloads
    ensures a.Register? ==> OtherStep(db, a) == db.(items := OtherStep(db, a).items)
    ensures a.Refresh? ==> OtherStep(db, a) == db.(workloads := OtherStep(db, a).workloads)
  {
    hide VersionClash, UrlTaken, ApprovalEventTaken;
  }

  lemma RegisterOpensFresh(db: Db, p: PlanId, urls: seq<string>, q: PlanId)
    ensures var db' := Commit(db, RegisterDeliverables(db, p, urls));
            Rows(db', q) == Rows(db, q) || (Rows(db, q) == [] && q == p && p in db.plans && Rows(db', q) == NewRows(urls))
  {
    hide UrlTaken;
  }

  lemma OtherKeepsRows(db: Db, a: Action)
    requires !OfReconciler(a)
    ensures RowsKept(db, OtherStep(db, a))
    ensures OtherStep(db, a).workloads.Keys == db.workloads.Keys
    ensures forall n | n in db.workloads :: SlotOf(OtherStep(db, a), n) == SlotOf(db, n)
  {
    OtherLeavesQueue(db, a);
    if a.Register? {
      hide RegisterDeliverables;
      forall p { RegisterOpensFresh(db, a.plan, a.urls, p); }
    } else if a.Refresh? {
    } else {
      hide OtherStep;
    }
  }

  /** p is completed, or would be once resumed. */
  predicate CompletedOrSaved(db: Db, p: PlanId) {
    (p in db.plans && db.plans[p].state == Completed) || (p in db.controls && db.controls[p] == Completed)
  }

  lemma VersionCompletesNothing(db: Db, a: Action, p: PlanId)
    requires WritesVersion(a)
    ensures CompletedOrSaved(OtherStep(db, a), p) ==> CompletedOrSaved(db, p)
  {
    if OtherStep(db, a) != db {
      var plan := VersionStep(db, a);
      hide OtherStep;
    }
  }

  /** No other thread completes a plan; resuming one only gives back what pausing saved. */
  lemma OtherCompletesNothing(db: Db, a: Action, p: PlanId)
    requires !OfReconciler(a)
    ensures CompletedOrSaved(OtherStep(db, a), p) ==> CompletedOrSaved(db, p)
  {
    if WritesVersion(a) {
      VersionCompletesNothing(db, a, p);
    } else {
      hide RegisterDeliverables, ApprovalEventTaken;
      OtherLeavesQueue(db, a);
    }
  }

  lemma RowsKeptKeepSerial(db: Db, db': Db)
    requires RowsKept(db, db') && Serial(db)
    ensures Serial(db')
  {
    forall p | p in db'.items ensures SerialRows(db'.items[p]) {
      assert Rows(db', p) == db'.items[p];
      assert p in db.items ==> Rows(db, p) == db.items[p];
    }
  }

  lemma RowsKeptKeepReads(db: Db, db': Db, t: Thread)
    requires RowsKept(db, db') && StillHolds(db, t)
    ensures StillHolds(db', t)
  {
    assert forall s, st :: At(db, s, st) ==> At(db', s, st);
  }

  lemma OtherKeepsCompleted(db: Db, a: Action)
    requires CompletedIsMerged(db) && !OfReconciler(a) && RowsKept(db, OtherStep(db, a))
    ensures CompletedIsMerged(OtherStep(db, a))
  {
    hide OtherStep;
    var db' := OtherStep(db, a);
    forall p | CompletedOrSaved(db', p) ensures Finished(db', p) {
      OtherCompletesNothing(db, a, p);
      assert Finished(db, p);
      assert Rows(db, p) == Rows(db', p) || Rows(db, p) == [];
    }
  }

  lemma OtherKeepsInv(s: Sys, a: Action)
    requires Inv(s) && !OfReconciler(a)
    ensures Inv(Step(s, a))
  {
    var db, db' := s.db, OtherStep(s.db, a);
    OtherKeepsRows(db, a);
    RowsKeptKeepSerial(db, db');
    RowsKeptKeepReads(db, db', s.thread);
    OtherKeepsCompleted(db, a);
    assert UniqueSlots(db');
  }

  // ----- the reconciler -----

  /** One deliverable row changed, and of the plans at most the state of its own. */
  ghost predicate Moved(db: Db, db': Db, s: Slot, d: Deliverable) {
    && HasSlot(db, s)
    && db'.items == db.items[s.plan := Rows(db, s.plan)[s.index := d]]
    && db'.controls == db.controls && db'.versions == db.versions && db'.approvals == db.approvals
    && (forall q :: q in db'.plans <==> q in db.plans)
    && (forall q | q in db.plans ::
          && db'.plans[q].version == db.plans[q].version
          && (db'.plans[q].state == db.plans[q].state
              || (q == s.plan && db'.plans[q].state in {PlanState.Running, Failed, Completed, Decomposed})))
  }

  /** A row may become d without breaking the queue discipline of its plan. */
  predicate InOrder(rows: seq<Deliverable>, k: nat, d: Deliverable)
    requires k < |rows|
  {
    && (d.state != Pending ==> forall i | 0 <= i < k :: rows[i].state == Merged)
    && (d.state != Merged ==> forall j | k < j < |rows| :: rows[j].state == Pending)
  }

  /** A row that was started has only merged rows before it; one that is not merged has only waiting rows after it. */
  lemma StartedIsInOrder(rows: seq<Deliverable>, k: nat, d: Deliverable)
    requires SerialRows(rows) && k < |rows| && rows[k].state !in {Pending, Merged}
    ensures InOrder(rows, k, d)
  {
  }

  lemma MovedKeepsSerial(db: Db, db': Db, s: Slot, d: Deliverable)
    requires Serial(db) && Moved(db, db', s, d) && InOrder(Rows(db, s.plan), s.index, d)
    ensures Serial(db')
  {
    assert SerialRows(db.items[s.plan]);
  }

  lemma MovedKeepsOthers(db: Db, db': Db, s: Slot, d: Deliverable, slots: seq<Slot>, state: ItemState)
    requires Moved(db, db', s, d) && AllAt(db, slots, state) && s !in slots
    ensures AllAt(db', slots, state)
  {
    forall i | 0 <= i < |slots| ensures At(db', slots[i], state) {
      assert slots[i] in slots && At(db, slots[i], state);
    }
  }

  lemma MovedKeepsCompleted(db: Db, db': Db, s: Slot, d: Deliverable)
    requires CompletedIsMerged(db) && Moved(db, db', s, d) && RowAt(db, s).state != Merged
    requires s.plan in db'.plans && db'.plans[s.plan].state == Completed ==>
               AllMerged(Rows(db', s.plan)) || (s.plan in db.plans && db.plans[s.plan].state == Completed)
    ensures CompletedIsMerged(db')
  {
    assert !Finished(db, s.plan);
    assert forall q | q != s.plan :: Rows(db', q) == Rows(db, q);
  }

  lemma HeadAndTail(db: Db, todo: seq<Slot>, state: ItemState)
    requires todo != [] && AllAt(db, todo, state)
    ensures At(db, todo[0], state) && AllAt(db, todo[1..], state) && todo[0] !in todo[1..]
  {
    assert forall i | 0 <= i < |todo| - 1 :: todo[1..][i] == todo[i + 1];
  }

  lemma FailMoves(db: Db, s: Slot)
    requires HasSlot(db, s)
    ensures var db' := FailDeliverable(db, s.plan, s.index);
            && Moved(db, db', s, RowAt(db, s).(state := Broken))
            && db'.workloads == db.workloads
            && (s.plan in db'.plans ==> db'.plans[s.plan].state == Failed)
  {
  }

  lemma BeginMergeMoves(db: Db, s: Slot, pull: PullRequest)
    requires HasSlot(db, s)
    ensures var db' := BeginMerge(db, s.plan, s.index, pull);
            && Moved(db, db', s, RowAt(db, s).(state := MergePending, pull := Some(pull)))
            && db'.workloads == db.workloads && db'.plans == db.plans
  {
  }

  lemma FinishMoves(db: Db, s: Slot, merged: bool)
    requires HasSlot(db, s)
    ensures var db' := FinishMerge(db, s.plan, s.index, merged);
            && Moved(db, db', s, RowAt(db, s).(state := if merged then Merged else Broken))
            && db'.workloads == db.workloads
            && (s.plan in db'.plans && db'.plans[s.plan].state == Completed
                ==> AllMerged(Rows(db', s.plan)) || db'.plans == db.plans)
  {
  }

  lemma RegisterMoves(db: Db, s: Slot, name: string, phase: string)
    requires HasSlot(db, s) && RegisterWorkload(db, name, s.plan, s.index, phase).Ok?
    ensures var db' := RegisterWorkload(db, name, s.plan, s.index, phase).value;
            && Moved(db, db', s, RowAt(db, s).(state := Active, workload := Some(name)))
            && (s.plan in db'.plans ==> db'.plans[s.plan].state == PlanState.Running)
            && db'.workloads == db.workloads[name :=
                 if name in db.workloads then db.workloads[name].(phase := phase) else Workload(s.plan, s.index, phase)]
  {
  }

  lemma RegisterKeepsUnique(db: Db, s: Slot, name: string, phase: string)
    requires UniqueSlots(db) && RegisterWorkload(db, name, s.plan, s.index, phase).Ok?
    ensures UniqueSlots(RegisterWorkload(db, name, s.plan, s.index, phase).value)
  {
    var db' := RegisterWorkload(db, name, s.plan, s.index, phase).value;
    if name !in db.workloads {
      forall n | n in db.workloads ensures SlotOf(db, n) != s {
        assert !SlotTaken(db, s.plan, s.index);
      }
    }
    RegisterListed(db, s, name, phase);
    hide RegisterWorkload, SlotTaken;
    forall m, n | m in db'.workloads && n in db'.workloads && SlotOf(db', m) == SlotOf(db', n) ensures m == n {
    }
  }

  lemma RegisterListed(db: Db, s: Slot, name: string, phase: string)
    requires RegisterWorkload(db, name, s.plan, s.index, phase).Ok?
    ensures RegisterWorkload(db, name, s.plan, s.index, phase).value.workloads
         == db.workloads[name :=
              if name in db.workloads then db.workloads[name].(phase := phase) else Workload(s.plan, s.index, phase)]
  {
  }

  lemma RetryMoves(db: Db, p: PlanId, url: string)
    requires PrepareRetry(db, p, url).Ok?
    ensures var db' := PrepareRetry(db, p, url).value;
            var s := Slot(p, FindUrl(Rows(db, p), url, 0).value);
            && At(db, s, Broken)
            && Moved(db, db', s, RetryRow(RowAt(db, s)))
            && (p in db'.plans ==> db'.plans[p].state == Decomposed)
            && db'.workloads == match RowAt(db, s).workload { case Some(n) => db.workloads - {n} case None => db.workloads }
  {
    hide ReferencedElsewhere;
  }

  /** A started row moves on while the rest of the reconciler's list stays as it was read. */
  lemma MoveKeepsInv(db: Db, db': Db, s: Slot, d: Deliverable)
    requires Serial(db) && UniqueSlots(db) && CompletedIsMerged(db)
    requires Moved(db, db', s, d) && db'.workloads == db.workloads
    requires RowAt(db, s).state in {Active, MergePending}
    requires s.plan in db'.plans && db'.plans[s.plan].state == Completed ==>
               AllMerged(Rows(db', s.plan)) || db'.plans == db.plans
    ensures Serial(db') && UniqueSlots(db') && CompletedIsMerged(db')
  {
    assert SerialRows(db.items[s.plan]);
    StartedIsInOrder(Rows(db, s.plan), s.index, d);
    MovedKeepsSerial(db, db', s, d);
    MovedKeepsCompleted(db, db', s, d);
  }

  lemma ScanFailKeepsInv(s: Sys)
    requires Inv(s)
    ensures Inv(Step(s, ScanFail))
  {
    if s.thread.Scanning? && s.thread.todo != [] {
      var head, tail := s.thread.todo[0], s.thread.todo[1..];
      HeadAndTail(s.db, s.thread.todo, Active);
      FailMoves(s.db, head);
      var d := Rows(s.db, head.plan)[head.index].(state := Broken);
      var db' := FailDeliverable(s.db, head.plan, head.index);
      MoveKeepsInv(s.db, db', head, d);
      MovedKeepsOthers(s.db, db', head, d, tail, Active);
    }
  }

  lemma ScanMergeKeepsInv(s: Sys, pull: PullRequest, atOnce: bool)
    requires Inv(s)
    ensures Inv(Step(s, ScanMerge(pull, atOnce)))
  {
    if s.thread.Scanning? && s.thread.todo != [] {
      var head, tail := s.thread.todo[0], s.thread.todo[1..];
      HeadAndTail(s.db, s.thread.todo, Active);
      BeginMergeMoves(s.db, head, pull);
      var d := Rows(s.db, head.plan)[head.index].(state := MergePending, pull := Some(pull));
      var db' := BeginMerge(s.db, head.plan, head.index, pull);
      MoveKeepsInv(s.db, db', head, d);
      MovedKeepsOthers(s.db, db', head, d, tail, Active);
    }
  }

  lemma MergeAtOnceKeepsInv(s: Sys)
    requires Inv(s)
    ensures Inv(Step(s, MergeAtOnce))
  {
    if s.thread.Merging? {
      var slot, todo := s.thread.slot, s.thread.todo;
      assert slot !in todo by {
        assert forall i | 0 <= i < |todo| :: At(s.db, todo[i], Active);
      }
      FinishMoves(s.db, slot, true);
      var d := Rows(s.db, slot.plan)[slot.index].(state := Merged);
      var db' := FinishMerge(s.db, slot.plan, slot.index, true);
      MoveKeepsInv(s.db, db', slot, d);
      MovedKeepsOthers(s.db, db', slot, d, todo, Active);
    }
  }

  lemma PollFinishKeepsInv(s: Sys, merged: bool)
    requires Inv(s)
    ensures Inv(Step(s, PollFinish(merged)))
  {
    if s.thread.Polling? && s.thread.todo != [] {
      var head, tail := s.thread.todo[0], s.thread.todo[1..];
      HeadAndTail(s.db, s.thread.todo, MergePending);
      FinishMoves(s.db, head, merged);
      var d := Rows(s.db, head.plan)[head.index].(state := if merged then Merged else Broken);
      var db' := FinishMerge(s.db, head.plan, head.index, merged);
      MoveKeepsInv(s.db, db', head, d);
      MovedKeepsOthers(s.db, db', head, d, tail, MergePending);
    }
  }

  lemma DispatchKeepsInv(s: Sys, name: string, phase: string)
    requires Inv(s)
    ensures Inv(Step(s, Dispatch(name, phase)))
  {
    if s.thread.Dispatching? {
      var slot := s.thread.slot;
      if RegisterWorkload(s.db, name, slot.plan, slot.index, phase).Ok? {
        RegisterMoves(s.db, slot, name, phase);
        RegisterKeepsUnique(s.db, slot, name, phase);
        var d := Rows(s.db, slot.plan)[slot.index].(state := Active, workload := Some(name));
        var db' := RegisterWorkload(s.db, name, slot.plan, slot.index, phase).value;
        assert SerialRows(s.db.items[slot.plan]);
        MovedKeepsSerial(s.db, db', slot, d);
        MovedKeepsCompleted(s.db, db', slot, d);
      }
    }
  }

  lemma RetryKeepsInv(s: Sys, p: PlanId, url: string)
    requires Inv(s)
    ensures Inv(Step(s, Retry(p, url)))
  {
    if s.thread.Idle? && PrepareRetry(s.db, p, url).Ok? {
      RetryMoves(s.db, p, url);
      var k := FindUrl(Rows(s.db, p), url, 0).value;
      var db' := PrepareRetry(s.db, p, url).value;
      assert SerialRows(s.db.items[p]);
      StartedIsInOrder(Rows(s.db, p), k, RetryRow(Rows(s.db, p)[k]));
      MovedKeepsSerial(s.db, db', Slot(p, k), RetryRow(Rows(s.db, p)[k]));
      MovedKeepsCompleted(s.db, db', Slot(p, k), RetryRow(Rows(s.db, p)[k]));
    }
  }

  /** Steps of the reconciler that only read. */
  lemma ReadsKeepInv(s: Sys, a: Action)
    requires Inv(s)
    requires a.Scan? || a.ScanNext? || a.Poll? || a.PollNext? || a.PollDone? || a.Pick? || a.Crash?
    ensures Inv(Step(s, a))
  {
    match a
    case Scan(names) =>
      if s.thread.Idle? && ListsActive(s.db, names) {
        var slots := SlotsOf(s.db, names);
        forall i | 0 <= i < |slots| ensures At(s.db, slots[i], Active) {
          assert names[i] in names && ActiveWorkload(s.db, names[i]);
        }
        forall i, j | 0 <= i < j < |slots| ensures slots[i] != slots[j] {
          assert names[i] in names && names[j] in names;
        }
      }
    case Poll(slots) =>
      if s.thread == Scanning([]) && ListsPendingMerges(s.db, slots) {
        forall i | 0 <= i < |slots| ensures At(s.db, slots[i], MergePending) {
          assert slots[i] in slots;
        }
      }
    case ScanNext =>
      if s.thread.Scanning? && s.thread.todo != [] { HeadAndTail(s.db, s.thread.todo, Active); }
    case PollNext =>
      if s.thread.Polling? && s.thread.todo != [] { HeadAndTail(s.db, s.thread.todo, MergePending); }
    case _ =>
  }

  lemma StepKeepsInv(s: Sys, a: Action)
    requires Inv(s)
    ensures Inv(Step(s, a))
  {
    if !OfReconciler(a) {
      OtherKeepsInv(s, a);
    } else {
      match a
      case ScanFail => ScanFailKeepsInv(s);
      case ScanMerge(pull, atOnce) => ScanMergeKeepsInv(s, pull, atOnce);
      case MergeAtOnce => MergeAtOnceKeepsInv(s);
      case PollFinish(merged) => PollFinishKeepsInv(s, merged);
      case Dispatch(name, phase) => DispatchKeepsInv(s, name, phase);
      case Retry(p, url) => RetryKeepsInv(s, p, url);
      case _ => ReadsKeepInv(s, a);
    }
  }

  lemma {:induction false} RunKeepsInv(s: Sys, actions: seq<Action>)
    requires Inv(s)
    ensures Inv(Run(s, actions))
    decreases |actions|
  {
    if actions != [] {
      StepKeepsInv(s, actions[0]);
      RunKeepsInv(Step(s, actions[0]), actions[1..]);
    }
  }
}
