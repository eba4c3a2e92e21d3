/** The loops of matrix.py and luna.py that drive the store, with other threads let in between any two transactions.
    Each returns the run of the interleaved machine that it was, so what is proved of every run holds of the code. */
module Reconciler {
  import opened Basics
  import opened Tables
  import opened Execution
  import opened StateStoreModel
  import opened Effects
  import opened Answers
  import Naming

  /** What other threads do around one question, before and after its answer and in between two writes on it. */
  datatype Moments = Moments(first: seq<Action>, second: seq<Action>, third: seq<Action>)

  /** Everything outside the reconciler, indexed by the question asked. */
  datatype World = World(reviews: nat -> Review, merges: nat -> MergeAnswer, others: nat -> Moments)

  predicate ByOthers(actions: seq<Action>) { forall a | a in actions :: !OfReconciler(a) }

  predicate Elsewhere(m: Moments) { ByOthers(m.first) && ByOthers(m.second) && ByOthers(m.third) }

  ghost predicate OtherThreads(w: World) { forall i: nat :: Elsewhere(w.others(i)) }

  /** The trace is a run from s to t, and the invariants hold at its end. */
  ghost predicate Explains(s: Sys, trace: seq<Action>, t: Sys) {
    Run(s, trace) == t && Inv(t)
  }

  lemma ExplainsStep(s: Sys, trace: seq<Action>, t: Sys, a: Action)
    requires Explains(s, trace, t)
    ensures Explains(s, trace + [a], Step(t, a))
  {
    hide Step, Inv;
    RunAppend(s, trace, [a]);
    RunOne(t, a);
    StepKeepsInv(t, a);
  }

  lemma ExplainsRun(s: Sys, trace: seq<Action>, t: Sys, more: seq<Action>)
    requires Explains(s, trace, t)
    ensures Explains(s, trace + more, Run(t, more))
  {
    hide Step, Inv;
    RunAppend(s, trace, more);
    RunKeepsInv(t, more);
  }

  lemma ExplainsGood(s: Sys, trace: seq<Action>, t: Sys)
    requires Explains(s, trace, t)
    ensures Inv(t)
  {
  }

  lemma ExplainsNothing(s: Sys)
    requires Inv(s)
    ensures Explains(s, [], s)
  {
  }

  // What single steps do, as equations.

  lemma StepScanning(db: Db, slot: Slot, todo: seq<Slot>, pull: PullRequest, atOnce: bool)
    ensures Step(Sys(db, Scanning([slot] + todo)), ScanNext) == Sys(db, Scanning(todo))
    ensures Step(Sys(db, Scanning([slot] + todo)), ScanFail)
         == Sys(FailDeliverable(db, slot.plan, slot.index), Scanning(todo))
    ensures Step(Sys(db, Scanning([slot] + todo)), ScanMerge(pull, atOnce))
         == Sys(BeginMerge(db, slot.plan, slot.index, pull), if atOnce then Merging(slot, todo) else Scanning(todo))
    ensures Step(Sys(db, Merging(slot, todo)), MergeAtOnce)
         == Sys(FinishMerge(db, slot.plan, slot.index, true), Scanning(todo))
  {
    assert ([slot] + todo)[1..] == todo;
  }

  lemma StepPolling(db: Db, slot: Slot, todo: seq<Slot>, merged: bool)
    ensures Step(Sys(db, Polling([slot] + todo)), PollNext) == Sys(db, Polling(todo))
    ensures Step(Sys(db, Polling([slot] + todo)), PollFinish(merged))
         == Sys(FinishMerge(db, slot.plan, slot.index, merged), Polling(todo))
    ensures Step(Sys(db, Polling([])), PollDone) == Sys(db, Idle)
  {
    assert ([slot] + todo)[1..] == todo;
  }

  lemma StepAnytime(db: Db, t: Thread, name: string, phase: string, p: PlanId, st: PlanState)
    ensures Step(Sys(db, t), Crash) == Sys(db, Idle)
    ensures Step(Sys(db, t), Refresh(name, phase)) == Sys(UpdateWorkload(db, name, phase), t)
    ensures st !in {Completed, Paused} ==> Step(Sys(db, t), Action.SetPlanState(p, st)) == Sys(SetState(db, p, st), t)
  {
  }

  lemma StepLists(db: Db, names: seq<string>, slots: seq<Slot>)
    ensures ListsActive(db, names) ==>
              (forall n | n in names :: n in db.workloads)
              && Step(Sys(db, Idle), Scan(names)) == Sys(db, Scanning(SlotsOf(db, names)))
    ensures ListsPendingMerges(db, slots) ==> Step(Sys(db, Scanning([])), Poll(slots)) == Sys(db, Polling(slots))
  {
    if ListsActive(db, names) {
      assert forall n | n in names :: ActiveWorkload(db, n);
    }
  }

  lemma StepDispatching(db: Db, p: PlanId, slot: Slot, hash: string, attempt: nat, name: string, phase: string)
    ensures (Tables.NextDeliverable(db, p).Some? && CurrentHash(db, p).Some?) ==>
              Step(Sys(db, Idle), Pick(p)) == Sys(db, Dispatching(Slot(p, Tables.NextDeliverable(db, p).value), CurrentHash(db, p).value,
                     Rows(db, p)[Tables.NextDeliverable(db, p).value].attempt))
    ensures Step(Sys(db, Dispatching(slot, hash, attempt)), Dispatch(name, phase))
         == Sys(Commit(db, RegisterWorkload(db, name, slot.plan, slot.index, phase)), Idle)
    ensures Step(Sys(db, Idle), Retry(p, name)) == Sys(Commit(db, PrepareRetry(db, p, name)), Idle)
  {
  }

  /** What a method did so far, as a run: the trace grows with every transaction. */
  lemma ExplainsNow(s: Sys, trace: seq<Action>, t: Sys, a: Action, u: Sys)
    requires Explains(s, trace, t) && Step(t, a) == u
    ensures Explains(s, trace + [a], u)
  {
    hide Step, Explains;
    ExplainsStep(s, trace, t, a);
  }

  lemma ExplainsMore(s: Sys, trace: seq<Action>, t: Sys, more: seq<Action>, u: Sys)
    requires Explains(s, trace, t) && (Run(t, more) == u || Explains(t, more, u))
    ensures Explains(s, trace + more, u)
  {
    hide Run, Inv;
    ExplainsRun(s, trace, t, more);
  }

  /** The phase an answer is recorded with. */
  function PhaseOf(review: Review): string {
    match review
    case StillRunning(phase) => phase
    case WorkloadFailed => "Failed"
    case _ => "Completed"
  }

  /** What an answer does to the deliverable. */
  function RowSteps(review: Review, between: seq<Action>): seq<Action> {
    match review
    case WorkloadFailed => [ScanFail]
    case Rejected => [ScanFail]
    case Accepted(pull, atOnce) => [ScanMerge(pull, atOnce)] + (if atOnce then between + [MergeAtOnce] else [])
    case _ => [ScanNext]
  }

  /** What each answer about a workload leads to, among the steps of other threads. */
  function ReviewSteps(name: string, review: Review, m: Moments): seq<Action> {
    m.first + if review.Unreachable? then [Crash]
              else [Refresh(name, PhaseOf(review))] + (m.second + if review.CutOff? then [Crash] else RowSteps(review, m.third))
  }

  /** What each answer about a pending merge leads to; a merge without an id is not asked about. */
  function PollSteps(hasMergeId: bool, answer: MergeAnswer): seq<Action> {
    if !hasMergeId || answer.InProgress? then [PollNext]
    else if answer.NoAnswer? then [Crash]
    else [PollFinish(answer.Done?)]
  }

  /** The first loop from the i-th workload on: it ends early where Foreman or GitHub cannot be reached. */
  function ReviewRun(names: seq<string>, w: World, i: nat): seq<Action>
    decreases |names| - i
  {
    if i >= |names| then w.others(i).first
    else ReviewSteps(names[i], w.reviews(i), w.others(i)) + if Ends(w.reviews(i)) then [] else ReviewRun(names, w, i + 1)
  }

  /** The second loop likewise; at its end the pass is over. */
  function PollRun(ids: seq<bool>, w: World, j: nat): seq<Action>
    decreases |ids| - j
  {
    if j >= |ids| then [PollDone]
    else w.others(j).first + PollSteps(ids[j], w.merges(j))
         + if Silent(ids[j], w.merges(j)) then [] else PollRun(ids, w, j + 1)
  }

  predicate AllAnswered(names: seq<string>, w: World) {
    forall i | 0 <= i < |names| :: !Ends(w.reviews(i))
  }

  lemma OthersStay(s: Sys, actions: seq<Action>)
    requires ByOthers(actions)
    ensures RowsStay(s.db, Run(s, actions).db)
  {
    OthersKeepRows(s, actions);
    KeptRowsStay(s.db, Run(s, actions).db);
  }

  /** The row the thread is at. */
  lemma AtRow(db: Db, slot: Slot, todo: seq<Slot>)
    ensures Inv(Sys(db, Scanning([slot] + todo))) ==> At(db, slot, Active)
    ensures Inv(Sys(db, Polling([slot] + todo))) ==> At(db, slot, MergePending)
    ensures Inv(Sys(db, Merging(slot, todo))) ==> At(db, slot, MergePending)
  {
    assert ([slot] + todo)[0] == slot;
  }

  /** These steps of other threads led from the one set of tables to the other. */
  ghost predicate After(db: Db, actions: seq<Action>, db': Db) { Run(Sys(db, Idle), actions) == Sys(db', Idle) }

  lemma AfterMeans()
    ensures forall db, actions, db' :: After(db, actions, db') <==> Run(Sys(db, Idle), actions) == Sys(db', Idle)
  {
  }

  /** Other threads run between two transactions of the reconciler. */
  method Let(store: StateStore, meanwhile: seq<Action>, ghost t: Thread)
    requires Inv(Sys(store.Contents(), t))
    requires ByOthers(meanwhile)
    modifies store
    ensures Explains(Sys(old(store.Contents()), t), meanwhile, Sys(store.Contents(), t))
    ensures RowsStay(old(store.Contents()), store.Contents()) && (meanwhile == [] ==> store.Contents() == old(store.Contents()))
    ensures After(old(store.Contents()), meanwhile, store.Contents())
  {
    ghost var start := Sys(store.Contents(), t);
    ExplainsNothing(start);
    AfterMeans();
    assert meanwhile == [] ==> Run(start, meanwhile) == start;
    OthersStay(start, meanwhile);
    assert forall a | a in meanwhile :: !OfReconciler(a);
    hide *;
    store.Others(meanwhile);
    assert Run(start, meanwhile) == Sys(store.Contents(), t);
    ExplainsMore(start, [], start, meanwhile, Sys(store.Contents(), t));
    assert [] + meanwhile == meanwhile;
  }

  lemma PhaseIsSet(name: string, phase: string)
    ensures forall db: Db {:trigger UpdateWorkload(db, name, phase)} ::
              UpdateWorkload(db, name, phase).items == db.items
              && (name in UpdateWorkload(db, name, phase).workloads ==> UpdateWorkload(db, name, phase).workloads[name].phase == phase)
  {
  }

  /** Other threads run, then an answer's phase is recorded; nothing moves the list. */
  method Hear(store: StateStore, name: string, phase: string, meanwhile: seq<Action>, ghost t: Thread)
    returns (ghost trace: seq<Action>)
    requires Inv(Sys(store.Contents(), t))
    requires ByOthers(meanwhile)
    modifies store
    ensures Explains(Sys(old(store.Contents()), t), trace, Sys(store.Contents(), t))
    ensures trace == meanwhile + [Refresh(name, phase)]
    ensures RowsStay(old(store.Contents()), store.Contents())
    ensures name in store.workloads ==> store.workloads[name].phase == phase
  {
    ghost var start := Sys(store.Contents(), t);
    PhaseIsSet(name, phase);
    hide *;
    Let(store, meanwhile, t);
    ghost var now := Sys(store.Contents(), t);
    trace := meanwhile;
    StepAnytime(now.db, t, name, phase, "", NeedsInput);
    store.UpdateWorkload(name, phase);
    SameItemsStay(now.db, store.Contents());
    StayThenStay(start.db, now.db, store.Contents());
    ExplainsNow(start, trace, now, Refresh(name, phase), Sys(store.Contents(), t));
    trace := trace + [Refresh(name, phase)];
  }

  /** An accepted pull request: begin the merge, and finish it where GitHub did so at once. */
  method Merge(store: StateStore, slot: Slot, pull: PullRequest, atOnce: bool, between: seq<Action>, ghost todo: seq<Slot>)
    returns (ghost trace: seq<Action>)
    requires Inv(Sys(store.Contents(), Scanning([slot] + todo))) && ByOthers(between)
    modifies store
    ensures Explains(Sys(old(store.Contents()), Scanning([slot] + todo)), trace, Sys(store.Contents(), Scanning(todo)))
    ensures trace == [ScanMerge(pull, atOnce)] + (if atOnce then between + [MergeAtOnce] else [])
    ensures Reviewed(old(store.Contents()), store.Contents(), slot, Review.Accepted(pull, atOnce))
    ensures between == [] ==> store.workloads == old(store.workloads)
  {
    ghost var start := Sys(store.Contents(), Scanning([slot] + todo));
    hide Inv, Explains, Turned, StateIs, ByOthers, OthersMerged, RowsStay;
    Begin(store, slot, pull, atOnce, todo);
    trace := [ScanMerge(pull, atOnce)];
    if atOnce {
      ghost var begun := Sys(store.Contents(), Merging(slot, todo));
      ExplainsGood(start, trace, begun);
      ghost var more, mid := Finish(store, slot, between, todo);
      BegunThenMerged(start.db, begun.db, mid, store.Contents(), slot, pull);
      ExplainsMore(start, trace, begun, more, Sys(store.Contents(), Scanning(todo)));
      trace := trace + more;
    }
  }

  method Begin(store: StateStore, slot: Slot, pull: PullRequest, atOnce: bool, ghost todo: seq<Slot>)
    requires Inv(Sys(store.Contents(), Scanning([slot] + todo)))
    modifies store`items
    ensures Explains(Sys(old(store.Contents()), Scanning([slot] + todo)), [ScanMerge(pull, atOnce)],
                     Sys(store.Contents(), if atOnce then Merging(slot, todo) else Scanning(todo)))
    ensures HasSlot(old(store.Contents()), slot)
    ensures Turned(old(store.Contents()), store.Contents(), slot,
                   RowAt(old(store.Contents()), slot).(state := MergePending, pull := Some(pull)))
  {
    ghost var start := Sys(store.Contents(), Scanning([slot] + todo));
    ExplainsNothing(start);
    AtRow(start.db, slot, todo);
    hide Inv, Explains, Step, ReconcilerStep, Tables.BeginMerge, OnlyRow, Turned;
    StepScanning(start.db, slot, todo, pull, atOnce);
    store.BeginMerge(slot.plan, slot.index, pull);
    OnlyRowTurned(start.db, store.Contents(), slot, RowAt(start.db, slot).(state := MergePending, pull := Some(pull)));
    ExplainsNow(start, [], start, ScanMerge(pull, atOnce),
                Sys(store.Contents(), if atOnce then Merging(slot, todo) else Scanning(todo)));
    assert [] + [ScanMerge(pull, atOnce)] == [ScanMerge(pull, atOnce)];
  }

  /** mid is what other threads made of the tables before the merge is recorded. */
  method Finish(store: StateStore, slot: Slot, between: seq<Action>, ghost todo: seq<Slot>)
    returns (ghost trace: seq<Action>, ghost mid: Db)
    requires Inv(Sys(store.Contents(), Merging(slot, todo))) && ByOthers(between)
    modifies store
    ensures Explains(Sys(old(store.Contents()), Merging(slot, todo)), trace, Sys(store.Contents(), Scanning(todo)))
    ensures trace == between + [MergeAtOnce]
    ensures RowsStay(old(store.Contents()), mid) && HasSlot(mid, slot)
    ensures between == [] ==> store.workloads == old(store.workloads)
    ensures Turned(mid, store.Contents(), slot, RowAt(mid, slot).(state := Merged))
    ensures OthersMerged(Rows(mid, slot.plan), slot.index) ==> StateIs(store.Contents(), slot.plan, Completed)
  {
    ghost var begun := Sys(store.Contents(), Merging(slot, todo));
    hide Inv, Explains, Run, ByOthers, RowsStay;
    Let(store, between, begun.thread);
    mid := store.Contents();
    ExplainsGood(begun, between, Sys(mid, begun.thread));
    AtRow(mid, slot, todo);
    trace := Record(store, slot, todo, begun, between);
  }

  /** The merge is recorded. */
  method Record(store: StateStore, slot: Slot, ghost todo: seq<Slot>, ghost start: Sys, ghost trace: seq<Action>)
    returns (ghost trace': seq<Action>)
    requires Explains(start, trace, Sys(store.Contents(), Merging(slot, todo))) && HasSlot(store.Contents(), slot)
    modifies store`plans, store`items
    ensures Explains(start, trace', Sys(store.Contents(), Scanning(todo))) && trace' == trace + [MergeAtOnce]
    ensures Turned(old(store.Contents()), store.Contents(), slot, RowAt(old(store.Contents()), slot).(state := Merged))
    ensures OthersMerged(Rows(old(store.Contents()), slot.plan), slot.index) ==> StateIs(store.Contents(), slot.plan, Completed)
  {
    ghost var now := Sys(store.Contents(), Merging(slot, todo));
    hide Inv, Explains, Step, ReconcilerStep, Tables.FinishMerge, Turned, OthersMerged, OnlyRow;
    StepScanning(now.db, slot, todo, PullRequest("", "", None), true);
    var completed := store.FinishMerge(slot.plan, slot.index, true);
    ExplainsNow(start, trace, now, MergeAtOnce, Sys(store.Contents(), Scanning(todo)));
    trace' := trace + [MergeAtOnce];
    OnlyRowTurned(now.db, store.Contents(), slot, RowAt(now.db, slot).(state := Merged));
  }

  /** The deliverable of one workload that answered: fail it, start its merge, or leave it. */
  method SettleRow(store: StateStore, slot: Slot, review: Review, between: seq<Action>, ghost todo: seq<Slot>)
    returns (ghost trace: seq<Action>)
    requires Inv(Sys(store.Contents(), Scanning([slot] + todo))) && !Ends(review) && ByOthers(between)
    modifies store
    ensures Explains(Sys(old(store.Contents()), Scanning([slot] + todo)), trace, Sys(store.Contents(), Scanning(todo)))
    ensures trace == RowSteps(review, between)
    ensures Reviewed(old(store.Contents()), store.Contents(), slot, review)
    ensures between == [] ==> store.workloads == old(store.workloads)
  {
    if review.Accepted? {
      trace := Merge(store, slot, review.pull, review.mergedAtOnce, between, todo);
      return;
    }
    ghost var start := Sys(store.Contents(), Scanning([slot] + todo));
    ExplainsNothing(start);
    AtRow(start.db, slot, todo);
    hide Inv, Explains, Step, ReconcilerStep, ByOthers, OnlyRow, Turned, OnlyState, StateIs, Tables.FailDeliverable;
    StepScanning(start.db, slot, todo, PullRequest("", "", None), false);
    if review.WorkloadFailed? || review.Rejected? {
      store.FailDeliverable(slot.plan, slot.index);
      OnlyRowTurned(start.db, store.Contents(), slot, RowAt(start.db, slot).(state := Broken));
      OnlyStateIs(start.db, store.Contents(), slot.plan, Failed);
      ExplainsNow(start, [], start, ScanFail, Sys(store.Contents(), Scanning(todo)));
      trace := [] + [ScanFail];
    } else {
      ExplainsNow(start, [], start, ScanNext, Sys(store.Contents(), Scanning(todo)));
      trace := [] + [ScanNext];
    }
  }

  /** What follows the recorded phase. */
  method Settle(store: StateStore, slot: Slot, review: Review, m: Moments, ghost todo: seq<Slot>)
    returns (ghost trace: seq<Action>)
    requires Inv(Sys(store.Contents(), Scanning([slot] + todo))) && !review.Unreachable? && Elsewhere(m)
    modifies store
    ensures Explains(Sys(old(store.Contents()), Scanning([slot] + todo)), trace,
                     Sys(store.Contents(), if review.CutOff? then Idle else Scanning(todo)))
    ensures trace == m.second + if review.CutOff? then [Crash] else RowSteps(review, m.third)
    ensures Reviewed(old(store.Contents()), store.Contents(), slot, review)
    ensures m.second == [] && m.third == [] ==> store.workloads == old(store.workloads)
  {
    ghost var start := Sys(store.Contents(), Scanning([slot] + todo));
    AtRow(start.db, slot, todo);
    hide Inv, Explains, RowSteps, ByOthers, Turned, StateIs, RowsStay;
    if review.CutOff? {
      trace := LoseContact(store, m.second, start.thread);
      return;
    }
    Let(store, m.second, start.thread);
    ghost var now := Sys(store.Contents(), start.thread);
    ExplainsGood(start, m.second, now);
    ghost var more := SettleRow(store, slot, review, m.third, todo);
    StayThenReviewed(start.db, now.db, store.Contents(), slot, review);
    ExplainsMore(start, m.second, now, more, Sys(store.Contents(), Scanning(todo)));
    trace := m.second + more;
  }

  /** One workload of the list: ask, record the phase, settle its deliverable; a call that fails ends the pass. */
  method ReviewOne(store: StateStore, name: string, slot: Slot, review: Review, m: Moments, ghost todo: seq<Slot>)
    returns (ok: bool, ghost trace: seq<Action>)
    requires Inv(Sys(store.Contents(), Scanning([slot] + todo))) && Elsewhere(m)
    modifies store
    ensures Explains(Sys(old(store.Contents()), Scanning([slot] + todo)), trace,
                     Sys(store.Contents(), if ok then Scanning(todo) else Idle))
    ensures trace == ReviewSteps(name, review, m) && ok == !Ends(review)
    ensures m.second == [] && m.third == [] && !review.Unreachable? && name in store.workloads ==>
              store.workloads[name].phase
              == match review case StillRunning(phase) => phase case WorkloadFailed => "Failed" case _ => "Completed"
    ensures Reviewed(old(store.Contents()), store.Contents(), slot, review)
  {
    ghost var start := Sys(store.Contents(), Scanning([slot] + todo));
    AtRow(start.db, slot, todo);
    hide Inv, Explains, RowSteps, ByOthers, Turned, StateIs, RowsStay;
    ok := !Ends(review);
    if review.Unreachable? {
      trace := LoseContact(store, m.first, start.thread);
      return;
    }
    trace := Hear(store, name, PhaseOf(review), m.first, start.thread);
    ghost var now := Sys(store.Contents(), start.thread);
    ExplainsGood(start, trace, now);
    ghost var more := Settle(store, slot, review, m, todo);
    StayThenReviewed(start.db, now.db, store.Contents(), slot, review);
    ExplainsMore(start, trace, now, more, Sys(store.Contents(), if ok then Scanning(todo) else Idle));
    Grown(m.first, [Refresh(name, PhaseOf(review))], more);
    trace := trace + more;
  }

  /** Other threads run, then the reconciler's call fails: the pass ends. */
  method LoseContact(store: StateStore, meanwhile: seq<Action>, ghost t: Thread) returns (ghost trace: seq<Action>)
    requires Inv(Sys(store.Contents(), t))
    requires ByOthers(meanwhile)
    modifies store
    ensures Explains(Sys(old(store.Contents()), t), trace, Sys(store.Contents(), Idle))
    ensures trace == meanwhile + [Crash]
    ensures RowsStay(old(store.Contents()), store.Contents()) && (meanwhile == [] ==> store.Contents() == old(store.Contents()))
  {
    ghost var start := Sys(store.Contents(), t);
    hide *;
    Let(store, meanwhile, t);
    ghost var now := Sys(store.Contents(), t);
    trace := meanwhile;
    StepAnytime(now.db, t, "", "", "", NeedsInput);
    ExplainsNow(start, trace, now, Crash, Sys(store.Contents(), Idle));
    trace := trace + [Crash];
  }

  lemma MergeState(db: Db, db': Db, p: PlanId, merged: bool, completed: bool)
    requires p in db.plans ==> OnlyState(db, db', p, if completed then Completed else if merged then db.plans[p].state else Failed)
    requires db'.plans.Keys == db.plans.Keys
    ensures completed ==> StateIs(db', p, Completed)
    ensures !merged && !completed ==> StateIs(db', p, Failed)
  {
  }

  /** A pending merge that is over is finished; one in progress, or without an id to ask about, is left. */
  method SettleMerge(store: StateStore, slot: Slot, hasMergeId: bool, answer: MergeAnswer, ghost todo: seq<Slot>)
    returns (ghost trace: seq<Action>)
    requires Inv(Sys(store.Contents(), Polling([slot] + todo))) && !(hasMergeId && answer.NoAnswer?)
    modifies store
    ensures Explains(Sys(old(store.Contents()), Polling([slot] + todo)), trace, Sys(store.Contents(), Polling(todo)))
    ensures trace == PollSteps(hasMergeId, answer)
    ensures Polled(old(store.Contents()), store.Contents(), slot, hasMergeId, answer)
    ensures !hasMergeId || answer.InProgress? ==> store.Contents() == old(store.Contents())
  {
    ghost var start := Sys(store.Contents(), Polling([slot] + todo));
    ExplainsNothing(start);
    AtRow(start.db, slot, todo);
    hide Inv, Explains, Step, ReconcilerStep, OnlyRow, Turned, OnlyState, StateIs, OthersMerged, Tables.FinishMerge;
    StepPolling(start.db, slot, todo, answer.Done?);
    if !hasMergeId || answer.InProgress? {
      ExplainsNow(start, [], start, PollNext, Sys(store.Contents(), Polling(todo)));
      trace := [] + [PollNext];
    } else {
      var completed := store.FinishMerge(slot.plan, slot.index, answer.Done?);
      OnlyRowTurned(start.db, store.Contents(), slot, RowAt(start.db, slot).(state := if answer.Done? then Merged else Broken));
      MergeState(start.db, store.Contents(), slot.plan, answer.Done?, completed);
      ExplainsNow(start, [], start, PollFinish(answer.Done?), Sys(store.Contents(), Polling(todo)));
      trace := [] + [PollFinish(answer.Done?)];
    }
  }

  /** One pending merge of the list: skip it without a merge id, else ask and finish or leave it. */
  method PollOne(store: StateStore, slot: Slot, hasMergeId: bool, answer: MergeAnswer, meanwhile: seq<Action>,
                 ghost todo: seq<Slot>)
    returns (ok: bool, ghost trace: seq<Action>)
    requires Inv(Sys(store.Contents(), Polling([slot] + todo)))
    requires ByOthers(meanwhile)
    modifies store
    ensures Explains(Sys(old(store.Contents()), Polling([slot] + todo)), trace,
                     Sys(store.Contents(), if ok then Polling(todo) else Idle))
    ensures trace == meanwhile + PollSteps(hasMergeId, answer) && ok == !Silent(hasMergeId, answer)
    ensures Polled(old(store.Contents()), store.Contents(), slot, hasMergeId, answer)
    ensures meanwhile == [] && !(hasMergeId && (answer.Done? || answer.Refused?)) ==> store.Contents() == old(store.Contents())
  {
    ghost var start := Sys(store.Contents(), Polling([slot] + todo));
    AtRow(start.db, slot, todo);
    ok := hasMergeId ==> !answer.NoAnswer?;
    if !ok {
      trace := LoseContact(store, meanwhile, start.thread);
      return;
    }
    hide Inv, Explains, PollSteps, Turned, StateIs, RowsStay;
    Let(store, meanwhile, start.thread);
    ghost var now := Sys(store.Contents(), start.thread);
    ExplainsGood(start, meanwhile, now);
    ghost var more := SettleMerge(store, slot, hasMergeId, answer, todo);
    StayThenPolled(start.db, now.db, store.Contents(), slot, hasMergeId, answer);
    ExplainsMore(start, meanwhile, now, more, Sys(store.Contents(), Polling(todo)));
    trace := meanwhile + more;
  }

  /** The list the first loop walks. */
  method ReadActive(store: StateStore) returns (names: seq<string>, slots: seq<Slot>, ghost trace: seq<Action>)
    requires Inv(Sys(store.Contents(), Idle))
    ensures |names| == |slots| && ListsActive(store.Contents(), names) && trace == [Scan(names)]
    ensures SlotsAre(store.Contents(), names, slots) && Inv(Sys(store.Contents(), Scanning(slots)))
    ensures Explains(Sys(store.Contents(), Idle), trace, Sys(store.Contents(), Scanning(slots)))
  {
    ghost var start := Sys(store.Contents(), Idle);
    ExplainsNothing(start);
    hide Inv, Explains, Step;
    names := store.ActiveWorkloads();
    StepLists(store.Contents(), names, []);
    slots := SlotsOf(store.Contents(), names);
    ExplainsNow(start, [], start, Scan(names), Sys(store.Contents(), Scanning(slots)));
    ExplainsGood(start, [] + [Scan(names)], Sys(store.Contents(), Scanning(slots)));
    trace := [] + [Scan(names)];
  }

  lemma RunUnfolds(names: seq<string>, ids: seq<bool>, w: World, i: nat)
    ensures i < |names| ==>
              ReviewRun(names, w, i) == ReviewSteps(names[i], w.reviews(i), w.others(i))
                                        + (if Ends(w.reviews(i)) then [] else ReviewRun(names, w, i + 1))
    ensures i >= |names| ==> ReviewRun(names, w, i) == w.others(i).first
    ensures i < |ids| ==>
              PollRun(ids, w, i) == w.others(i).first + PollSteps(ids[i], w.merges(i))
                                    + (if Silent(ids[i], w.merges(i)) then [] else PollRun(ids, w, i + 1))
    ensures i >= |ids| ==> PollRun(ids, w, i) == [PollDone]
  {
  }

  /** a + (b + c), the way a trace grows. */
  lemma Grown(a: seq<Action>, b: seq<Action>, c: seq<Action>)
    ensures a + (b + c) == a + b + c && a + [] == a
  {
  }

  lemma OthersOf(w: World, i: nat)
    requires OtherThreads(w)
    ensures Elsewhere(w.others(i)) && ByOthers(w.others(i).first)
  {
  }

  /** One turn of the first loop takes its part of the whole trace. */
  lemma ReviewedSoFar(names: seq<string>, w: World, i: nat, trace: seq<Action>, more: seq<Action>, whole: seq<Action>)
    requires i < |names| && more == ReviewSteps(names[i], w.reviews(i), w.others(i))
    requires trace + ReviewRun(names, w, i) == whole
    ensures trace + more + (if Ends(w.reviews(i)) then [] else ReviewRun(names, w, i + 1)) == whole
    ensures Ends(w.reviews(i)) ==> trace + more == whole
  {
    hide ReviewSteps;
    RunUnfolds(names, [], w, i);
    Grown(trace, more, if Ends(w.reviews(i)) then [] else ReviewRun(names, w, i + 1));
  }

  lemma PolledSoFar(ids: seq<bool>, w: World, j: nat, trace: seq<Action>, more: seq<Action>, whole: seq<Action>)
    requires j < |ids| && more == w.others(j).first + PollSteps(ids[j], w.merges(j))
    requires trace + PollRun(ids, w, j) == whole
    ensures trace + more + (if Silent(ids[j], w.merges(j)) then [] else PollRun(ids, w, j + 1)) == whole
    ensures Silent(ids[j], w.merges(j)) ==> trace + more == whole
  {
    hide PollSteps;
    RunUnfolds([], ids, w, j);
    Grown(trace, more, if Silent(ids[j], w.merges(j)) then [] else PollRun(ids, w, j + 1));
  }

  /** The first loop of reconcile_once: every workload active when the list was read. */
  method ReviewAll(store: StateStore, w: World)
    returns (ok: bool, ghost names: seq<string>, ghost slots: seq<Slot>, ghost trace: seq<Action>)
    requires Inv(Sys(store.Contents(), Idle)) && OtherThreads(w)
    modifies store
    ensures Explains(Sys(old(store.Contents()), Idle), trace, Sys(store.Contents(), if ok then Scanning([]) else Idle))
    ensures ListsActive(old(store.Contents()), names) && ok == AllAnswered(names, w)
    ensures trace == [Scan(names)] + ReviewRun(names, w, 0)
    ensures SlotsAre(old(store.Contents()), names, slots)
    ensures AllTurned(old(store.Contents()), store.Contents(), slots, ReviewsTo(w.reviews, Reached(names, w, 0)))
  {
    AnsweredMeans(w);
    hide *;
    ghost var start := Sys(store.Contents(), Idle);
    var list, walk, read := ReadActive(store);
    names, slots, trace := list, walk, read;
    ListIsSound(start.db, names, slots, w.reviews);
    assert slots[0..] == slots;
    var i := 0;
    while i < |walk|
      invariant i <= |slots| == |list| && names == list && slots == walk
      invariant AllTurned(start.db, store.Contents(), slots, ReviewsTo(w.reviews, i))
      invariant Reached(names, w, 0) == Reached(names, w, i)
      invariant Explains(start, trace, Sys(store.Contents(), Scanning(slots[i..])))
      invariant trace + ReviewRun(names, w, i) == [Scan(names)] + ReviewRun(names, w, 0)
      invariant forall j | 0 <= j < i :: !Ends(w.reviews(j))
    {
      ghost var here := Sys(store.Contents(), Scanning(slots[i..]));
      ExplainsGood(start, trace, here);
      assert [slots[i]] + slots[i + 1..] == slots[i..];
      OthersOf(w, i);
      var reviewed, more := ReviewOne(store, list[i], walk[i], w.reviews(i), w.others(i), slots[i + 1..]);
      OneMoreReviewed(start.db, here.db, store.Contents(), slots, w.reviews, i);
      ReachedNext(names, w, i);
      ExplainsMore(start, trace, here, more,
                   Sys(store.Contents(), if reviewed then Scanning(slots[i + 1..]) else Idle));
      ReviewedSoFar(names, w, i, trace, more, [Scan(names)] + ReviewRun(names, w, 0));
      trace := trace + more;
      if !reviewed {
        assert Ends(w.reviews(i));
        return false, names, slots, trace;
      }
      i := i + 1;
    }
    assert slots[i..] == [];
    RunUnfolds(names, [], w, i);
    OthersOf(w, i);
    ghost var here := Sys(store.Contents(), Scanning([]));
    ExplainsGood(start, trace, here);
    ReachedNext(names, w, i);
    Let(store, w.others(i).first, Scanning([]));
    AllTurnedThenStay(start.db, here.db, store.Contents(), slots, ReviewsTo(w.reviews, i));
    ExplainsMore(start, trace, here, w.others(i).first, Sys(store.Contents(), Scanning([])));
    trace := trace + w.others(i).first;
    ok := true;
  }

  /** The listed workloads' rows. */
  ghost predicate SlotsAre(db: Db, names: seq<string>, slots: seq<Slot>) {
    |slots| == |names| && forall i | 0 <= i < |names| :: names[i] in db.workloads && slots[i] == SlotOf(db, names[i])
  }

  /** How many of the workloads from the i-th on are asked about, counting those before. */
  function Reached(names: seq<string>, w: World, i: nat): nat
    decreases |names| - i
  {
    if i >= |names| then |names| else if Ends(w.reviews(i)) then i + 1 else Reached(names, w, i + 1)
  }

  function ReachedPoll(ids: seq<bool>, w: World, j: nat): nat
    decreases |ids| - j
  {
    if j >= |ids| then |ids| else if Silent(ids[j], w.merges(j)) then j + 1 else ReachedPoll(ids, w, j + 1)
  }

  lemma ReachedNext(names: seq<string>, w: World, i: nat)
    ensures i < |names| && !Ends(w.reviews(i)) ==> Reached(names, w, i) == Reached(names, w, i + 1)
    ensures i < |names| && Ends(w.reviews(i)) ==> Reached(names, w, i) == i + 1
    ensures i == |names| ==> Reached(names, w, i) == i
  {
  }

  lemma ReachedPollNext(ids: seq<bool>, w: World, j: nat)
    ensures j < |ids| && !Silent(ids[j], w.merges(j)) ==> ReachedPoll(ids, w, j) == ReachedPoll(ids, w, j + 1)
    ensures j < |ids| && Silent(ids[j], w.merges(j)) ==> ReachedPoll(ids, w, j) == j + 1
    ensures j == |ids| ==> ReachedPoll(ids, w, j) == j
  {
  }

  lemma ListIsSound(db: Db, names: seq<string>, slots: seq<Slot>, reviews: nat -> Review)
    requires SlotsAre(db, names, slots) && Inv(Sys(db, Scanning(slots)))
    ensures DistinctSlots(slots) && AllTurned(db, db, slots, ReviewsTo(reviews, 0))
  {
    NoneTurned(db, slots, Active, reviews, [], i => NoAnswer);
  }

  lemma PendingIsSound(db: Db, slots: seq<Slot>, ids: seq<bool>, merges: nat -> MergeAnswer)
    requires Inv(Sys(db, Polling(slots)))
    ensures DistinctSlots(slots) && AllTurned(db, db, slots, PollsTo(ids, merges, 0))
  {
    NoneTurned(db, slots, MergePending, i => Unreachable, ids, merges);
  }

  lemma AnsweredMeans(w: World)
    ensures forall names: seq<string> :: AllAnswered(names, w) <==> forall i | 0 <= i < |names| :: !Ends(w.reviews(i))
  {
  }

  /** merge_uuid is set on the row, as it was read. */
  predicate HasMergeId(db: Db, s: Slot) {
    HasSlot(db, s) && RowAt(db, s).pull.Some? && RowAt(db, s).pull.value.mergeId.Some?
  }

  /** The list the second loop walks, with what the rows said about their merge ids. */
  method ReadPending(store: StateStore) returns (merges: seq<Slot>, ids: seq<bool>, ghost trace: seq<Action>)
    requires Inv(Sys(store.Contents(), Scanning([])))
    ensures |ids| == |merges| && forall i | 0 <= i < |ids| :: ids[i] == HasMergeId(store.Contents(), merges[i])
    ensures ListsPendingMerges(store.Contents(), merges) && trace == [Poll(merges)]
    ensures Explains(Sys(store.Contents(), Scanning([])), trace, Sys(store.Contents(), Polling(merges)))
    ensures Inv(Sys(store.Contents(), Polling(merges)))
  {
    ghost var start := Sys(store.Contents(), Scanning([]));
    ExplainsNothing(start);
    hide Inv, Explains, Step, HasMergeId;
    merges := store.PendingMerges();
    var db := store.Contents();
    ids := seq(|merges|, i requires 0 <= i < |merges| => HasMergeId(db, merges[i]));
    StepLists(db, [], merges);
    ExplainsNow(start, [], start, Poll(merges), Sys(db, Polling(merges)));
    ExplainsGood(start, [] + [Poll(merges)], Sys(db, Polling(merges)));
    trace := [] + [Poll(merges)];
  }

  /** The rows that were pending, and whether each had a merge id. */
  ghost predicate WerePending(db: Db, merges: seq<Slot>, ids: seq<bool>) {
    && ListsPendingMerges(db, merges) && |ids| == |merges|
    && forall i | 0 <= i < |ids| :: HasSlot(db, merges[i]) &&
         var pull := RowAt(db, merges[i]).pull;
         ids[i] == (pull.Some? && pull.value.mergeId.Some?)
  }

  lemma WerePendingMeans(db: Db, merges: seq<Slot>, ids: seq<bool>)
    requires ListsPendingMerges(db, merges) && |ids| == |merges|
    requires forall i | 0 <= i < |ids| :: ids[i] == HasMergeId(db, merges[i])
    ensures WerePending(db, merges, ids)
  {
    forall i | 0 <= i < |ids| ensures HasSlot(db, merges[i]) {
      assert merges[i] in merges;
    }
  }

  /** The second loop of reconcile_once: every merge pending when the list was read. */
  method PollAll(store: StateStore, w: World) returns (ghost merges: seq<Slot>, ghost ids: seq<bool>, ghost trace: seq<Action>)
    requires Inv(Sys(store.Contents(), Scanning([]))) && OtherThreads(w)
    modifies store
    ensures Explains(Sys(old(store.Contents()), Scanning([])), trace, Sys(store.Contents(), Idle))
    ensures WerePending(old(store.Contents()), merges, ids) && trace == [Poll(merges)] + PollRun(ids, w, 0)
    ensures AllTurned(old(store.Contents()), store.Contents(), merges, PollsTo(ids, w.merges, ReachedPoll(ids, w, 0)))
  {
    hide *;
    ghost var start := Sys(store.Contents(), Scanning([]));
    var list, known, read := ReadPending(store);
    merges, ids, trace := list, known, read;
    WerePendingMeans(store.Contents(), merges, ids);
    PendingIsSound(start.db, merges, ids, w.merges);
    assert list[0..] == list;
    var j := 0;
    while j < |list|
      invariant j <= |list| == |known| && ids == known && merges == list
      invariant AllTurned(start.db, store.Contents(), merges, PollsTo(ids, w.merges, j))
      invariant ReachedPoll(ids, w, 0) == ReachedPoll(ids, w, j)
      invariant Explains(start, trace, Sys(store.Contents(), Polling(list[j..])))
      invariant trace + PollRun(ids, w, j) == [Poll(merges)] + PollRun(ids, w, 0)
    {
      ghost var here := Sys(store.Contents(), Polling(list[j..]));
      ExplainsGood(start, trace, here);
      assert [list[j]] + list[j + 1..] == list[j..];
      OthersOf(w, j);
      var ok, more := PollOne(store, list[j], known[j], w.merges(j), w.others(j).first, list[j + 1..]);
      OneMorePolled(start.db, here.db, store.Contents(), merges, ids, w.merges, j);
      ReachedPollNext(ids, w, j);
      ExplainsMore(start, trace, here, more, Sys(store.Contents(), if ok then Polling(list[j + 1..]) else Idle));
      PolledSoFar(ids, w, j, trace, more, [Poll(merges)] + PollRun(ids, w, 0));
      trace := trace + more;
      if !ok {
        return;
      }
      j := j + 1;
    }
    assert list[j..] == [];
    RunUnfolds([], ids, w, j);
    ReachedPollNext(ids, w, j);
    StepPolling(store.Contents(), Slot("", 0), [], false);
    ExplainsNow(start, trace, Sys(store.Contents(), Polling([])), PollDone, Sys(store.Contents(), Idle));
    trace := trace + [PollDone];
  }

  /** reconcile_once, as far as deliverables go: every active workload leads to what its answer says, and when all were
      answered, so does every pending merge. */
  method ReconcileOnce(store: StateStore, scan: World, poll: World)
    returns (ghost names: seq<string>, ghost slots: seq<Slot>, ghost merges: seq<Slot>, ghost ids: seq<bool>, ghost mid: Db,
             ghost trace: seq<Action>)
    requires Inv(Sys(store.Contents(), Idle)) && OtherThreads(scan) && OtherThreads(poll)
    modifies store
    ensures Explains(Sys(old(store.Contents()), Idle), trace, Sys(store.Contents(), Idle))
    ensures ListsActive(old(store.Contents()), names)
    ensures var first := [Scan(names)] + ReviewRun(names, scan, 0);
            && mid == Run(Sys(old(store.Contents()), Idle), first).db
            && if AllAnswered(names, scan)
               then WerePending(mid, merges, ids) && trace == first + ([Poll(merges)] + PollRun(ids, poll, 0))
               else trace == first
    ensures SlotsAre(old(store.Contents()), names, slots)
    ensures AllTurned(old(store.Contents()), mid, slots, ReviewsTo(scan.reviews, Reached(names, scan, 0)))
    ensures if AllAnswered(names, scan)
            then AllTurned(mid, store.Contents(), merges, PollsTo(ids, poll.merges, ReachedPoll(ids, poll, 0)))
            else store.Contents() == mid
  {
    ghost var start := Sys(store.Contents(), Idle);
    ExplainsMeans(start);
    hide *;
    var ok;
    merges, ids := [], [];
    ok, names, slots, trace := ReviewAll(store, scan);
    mid := store.Contents();
    if ok {
      ghost var here := Sys(store.Contents(), Scanning([]));
      ExplainsGood(start, trace, here);
      ghost var more;
      merges, ids, more := PollAll(store, poll);
      ExplainsMore(start, trace, here, more, Sys(store.Contents(), Idle));
      trace := trace + more;
    }
  }

  lemma ExplainsMeans(s: Sys)
    ensures forall trace, t :: Explains(s, trace, t) ==> Run(s, trace) == t
  {
  }

  /** A deliverable has been handed to Foreman: its row, the workload's row and the plan say so. */
  predicate Started(db: Db, p: PlanId, k: nat, name: string, phase: string) {
    && name in db.workloads && db.workloads[name].phase == phase
    && HasRow(db, p, k) && Rows(db, p)[k].state == Active && Rows(db, p)[k].workload == Some(name)
    && (p in db.plans ==> db.plans[p].state == PlanState.Running)
  }

  lemma RegisteredIsStarted(db: Db, name: string, p: PlanId, k: nat, phase: string)
    requires HasRow(db, p, k)
    ensures Tables.RegisterWorkload(db, name, p, k, phase).Ok? <==> name in db.workloads || (p in db.plans && !SlotTaken(db, p, k))
    ensures Tables.RegisterWorkload(db, name, p, k, phase).Ok? ==>
              Started(Tables.RegisterWorkload(db, name, p, k, phase).value, p, k, name, phase)
  {
  }

  lemma PickedHasRow(db: Db, slot: Slot, hash: string, attempt: nat)
    requires Inv(Sys(db, Dispatching(slot, hash, attempt)))
    ensures HasRow(db, slot.plan, slot.index)
  {
  }

  /** The result of Luna's create_workload call; item is the text of the deliverable it hands to Foreman. */
  datatype Created =
    | Created(name: string, index: nat, hash: string, attempt: nat, item: string)
    | Nothing | Blocked | Denied | Aborted

  /** The row create_workload may start, if the issue it was asked for is that row's. */
  method FrontOfQueue(store: StateStore, p: PlanId, issue: string) returns (front: Option<nat>, matches: bool, attempt: nat)
    ensures front == Tables.NextDeliverable(store.Contents(), p)
    ensures front.Some? ==> attempt == Rows(store.Contents(), p)[front.value].attempt
    ensures matches <==> front.Some? && Rows(store.Contents(), p)[front.value].issueUrl == issue
  {
    attempt := 0;
    matches := false;
    front := store.NextDeliverable(p);
    if front.Some? {
      attempt := Rows(store.Contents(), p)[front.value].attempt;
      matches := Rows(store.Contents(), p)[front.value].issueUrl == issue;
    }
  }

  /** The queue read before other threads acted is still the queue. */
  method Wait(store: StateStore, p: PlanId, actions: seq<Action>)
    requires ByOthers(actions) && Tables.NextDeliverable(store.Contents(), p).Some?
    modifies store
    ensures forall t :: Run(Sys(old(store.Contents()), t), actions) == Sys(store.Contents(), t)
    ensures After(old(store.Contents()), actions, store.Contents())
    ensures Rows(store.Contents(), p) == Rows(old(store.Contents()), p)
    ensures Tables.NextDeliverable(store.Contents(), p) == Tables.NextDeliverable(old(store.Contents()), p)
  {
    ghost var before := store.Contents();
    OthersKeepRows(Sys(before, Idle), actions);
    AfterMeans();
    hide Run, After;
    store.Others(actions);
    assert Run(Sys(before, Idle), actions) == Sys(store.Contents(), Idle);
    SameQueueSameNext(before, store.Contents(), p);
  }

  function CurrentVersion(db: Db, p: PlanId): Option<Version> {
    if p in db.plans && VersionId(p, db.plans[p].version) in db.versions
    then Some(db.versions[VersionId(p, db.plans[p].version)]) else None
  }

  /** What stands around a call: the checklist of a text, whether one of its guardrails meets an item, whether Foreman can be
      reached, and the phase it reports. */
  datatype Setting = Setting(items: string -> seq<string>, guarded: (string, string) -> bool, reachable: bool, phase: string)

  /** The call goes on with row k of a plan that reads so: the k-th item of the current text is what is handed out. */
  ghost predicate StartOutcome(db: Db, p: PlanId, k: nat, attempt: nat, c: Setting, meanwhile: seq<Action>, r: Created, db': Db) {
    var version := CurrentVersion(db, p);
    if version.None? || k >= |c.items(version.value.markdown)| then r == Aborted && db' == db
    else if c.guarded(version.value.markdown, c.items(version.value.markdown)[k])
    then r == Blocked && OnlyState(db, db', p, NeedsInput) && db' == db.(plans := db'.plans)
    else if !c.reachable then r == Aborted && After(db, meanwhile, db')
    else exists late :: Registers(db, late, p, k, attempt, version.value, c, meanwhile, r, db')
  }

  /** late is what other threads made of the tables while Foreman was asked. The workload is registered unless its row's slot
      is taken. */
  ghost predicate Registers(db: Db, late: Db, p: PlanId, k: nat, attempt: nat, version: Version, c: Setting,
                            meanwhile: seq<Action>, r: Created, db': Db) {
    var name := Naming.WorkloadName(p, version.hash, Some(k + 1), attempt);
    && After(db, meanwhile, late)
    && if name in late.workloads || (p in late.plans && !SlotTaken(late, p, k))
       then k < |c.items(version.markdown)| && r == Created(name, k, version.hash, attempt, c.items(version.markdown)[k])
            && Started(db', p, k, name, c.phase)
       else r == Aborted && db' == late
  }

  /** All outcomes of create_workload for an issue, from the queue as it is. */
  ghost predicate CreateOutcome(db: Db, p: PlanId, stateAtTurn: PlanState, issue: string, c: Setting, m: Moments,
                                r: Created, db': Db) {
    var next := Tables.NextDeliverable(db, p);
    if stateAtTurn !in {Decomposed, PlanState.Running} then r == Denied && db' == db
    else if next.None? then r == Nothing && db' == db
    else if Rows(db, p)[next.value].issueUrl != issue then r == Denied && db' == db
    else exists mid :: After(db, m.first, mid)
                  && StartOutcome(mid, p, next.value, Rows(db, p)[next.value].attempt, c, m.second, r, db')
  }

  /** create_workload: only the next deliverable, of a plan that was decomposed or running when the turn began.
      The queue is read first, the version later, and Foreman is asked between that and the write. */
  method CreateWorkload(store: StateStore, p: PlanId, stateAtTurn: PlanState, issue: string, c: Setting, m: Moments)
    returns (r: Created, ghost trace: seq<Action>)
    requires Inv(Sys(store.Contents(), Idle)) && Elsewhere(m)
    modifies store
    ensures Explains(Sys(old(store.Contents()), Idle), trace, Sys(store.Contents(), Idle))
    ensures CreateOutcome(old(store.Contents()), p, stateAtTurn, issue, c, m, r, store.Contents())
  {
    ghost var start := Sys(store.Contents(), Idle);
    ExplainsNothing(start);
    hide Inv, Explains, Run, Rows, NextDeliverable, StartOutcome, ByOthers, After;
    trace := [];
    if stateAtTurn !in {Decomposed, PlanState.Running} {
      return Denied, trace;
    }
    var front, matches, attempt := FrontOfQueue(store, p, issue);
    if front.None? {
      return Nothing, trace;
    }
    if !matches {
      return Denied, trace;
    }
    Wait(store, p, m.first);
    ghost var now := Sys(store.Contents(), Idle);
    ExplainsMore(start, trace, start, m.first, now);
    trace := trace + m.first;
    ExplainsGood(start, trace, now);
    var created, more := StartFront(store, p, front.value, attempt, c, m.second);
    ExplainsMore(start, trace, now, more, Sys(store.Contents(), Idle));
    trace := trace + more;
    r := created;
  }

  /** What a created workload is: the next deliverable's, at its attempt, named after both and after the text that was read,
      with that text's item at the same position. */
  lemma CreatedIsNext(db: Db, p: PlanId, stateAtTurn: PlanState, issue: string, c: Setting, m: Moments, r: Created, db': Db)
    returns (version: Version)
    requires CreateOutcome(db, p, stateAtTurn, issue, c, m, r, db') && r.Created?
    ensures stateAtTurn in {Decomposed, PlanState.Running} && c.reachable
    ensures Tables.NextDeliverable(db, p) == Some(r.index) && Rows(db, p)[r.index].issueUrl == issue
    ensures r.attempt == Rows(db, p)[r.index].attempt && r.name == Naming.WorkloadName(p, r.hash, Some(r.index + 1), r.attempt)
    ensures CurrentVersion(Run(Sys(db, Idle), m.first).db, p) == Some(version) && version.hash == r.hash
    ensures r.index < |c.items(version.markdown)| && r.item == c.items(version.markdown)[r.index]
    ensures !c.guarded(version.markdown, r.item) && Started(db', p, r.index, r.name, c.phase)
  {
    hide Run, Rows, NextDeliverable, SlotTaken, Started;
    var k := Tables.NextDeliverable(db, p).value;
    var mid :| After(db, m.first, mid) && StartOutcome(mid, p, k, Rows(db, p)[k].attempt, c, m.second, r, db');
    version := CurrentVersion(mid, p).value;
    var late :| Registers(mid, late, p, k, Rows(db, p)[k].attempt, version, c, m.second, r, db');
  }

  /** The front of the queue is known: read the version, stop at a guardrail, else dispatch. */
  method StartFront(store: StateStore, p: PlanId, k: nat, attempt: nat, c: Setting, meanwhile: seq<Action>)
    returns (r: Created, ghost trace: seq<Action>)
    requires Inv(Sys(store.Contents(), Idle)) && ByOthers(meanwhile)
    requires Tables.NextDeliverable(store.Contents(), p) == Some(k) && Rows(store.Contents(), p)[k].attempt == attempt
    modifies store
    ensures Explains(Sys(old(store.Contents()), Idle), trace, Sys(store.Contents(), Idle))
    ensures StartOutcome(old(store.Contents()), p, k, attempt, c, meanwhile, r, store.Contents())
  {
    ghost var now := Sys(store.Contents(), Idle);
    HashOfVersion(now.db, p);
    hide Inv, Explains, Run, Rows, NextDeliverable, CurrentHash, CurrentVersion, OnlyState, Registers, ByOthers, After;
    trace := [];
    var version := CurrentVersion(store.Contents(), p);
    if version.None? || k >= |c.items(version.value.markdown)| {
      ExplainsNothing(now);
      return Aborted, trace;
    }
    var item := c.items(version.value.markdown)[k];
    if c.guarded(version.value.markdown, item) {
      trace := Block(store, p);
      return Blocked, trace;
    }
    ghost var picked := Sys(now.db, Dispatching(Slot(p, k), version.value.hash, attempt));
    Picked(now.db, p, k, version.value.hash, attempt);
    ExplainsGood(now, [Pick(p)], picked);
    var created, more := DispatchPicked(store, Slot(p, k), version.value, attempt, c, meanwhile);
    ExplainsMore(now, [Pick(p)], picked, more, Sys(store.Contents(), Idle));
    trace := [Pick(p)] + more;
    r := created;
  }

  lemma HashOfVersion(db: Db, p: PlanId)
    ensures CurrentHash(db, p) == match CurrentVersion(db, p) case Some(v) => Some(v.hash) case None => None
  {
  }

  /** A deliverable meets a guardrail of the plan: the plan waits for its owner. */
  method Block(store: StateStore, p: PlanId) returns (ghost trace: seq<Action>)
    requires Inv(Sys(store.Contents(), Idle))
    modifies store
    ensures Explains(Sys(old(store.Contents()), Idle), trace, Sys(store.Contents(), Idle))
    ensures OnlyState(old(store.Contents()), store.Contents(), p, NeedsInput)
    ensures store.Contents() == old(store.Contents()).(plans := store.plans)
  {
    ghost var now := Sys(store.Contents(), Idle);
    ExplainsNothing(now);
    StateOnly(now.db, p, NeedsInput);
    hide Inv, Explains, Step, OnlyState, SetState;
    StepAnytime(now.db, Idle, "", "", p, NeedsInput);
    store.SetPlanState(p, NeedsInput);
    ExplainsNow(now, [], now, Action.SetPlanState(p, NeedsInput), Sys(store.Contents(), Idle));
    trace := [] + [Action.SetPlanState(p, NeedsInput)];
  }

  lemma StateOnly(db: Db, p: PlanId, state: PlanState)
    ensures OnlyState(db, SetState(db, p, state), p, state)
    ensures SetState(db, p, state) == db.(plans := SetState(db, p, state).plans)
  {
  }

  lemma Picked(db: Db, p: PlanId, k: nat, hash: string, attempt: nat)
    requires Inv(Sys(db, Idle)) && CurrentHash(db, p) == Some(hash)
    requires Tables.NextDeliverable(db, p) == Some(k) && Rows(db, p)[k].attempt == attempt
    ensures Explains(Sys(db, Idle), [Pick(p)], Sys(db, Dispatching(Slot(p, k), hash, attempt)))
  {
    hide Inv, Explains, Step, CurrentHash, NextDeliverable, Rows;
    StepDispatching(db, p, Slot(p, 0), "", 0, "", "");
    ExplainsNothing(Sys(db, Idle));
    ExplainsNow(Sys(db, Idle), [], Sys(db, Idle), Pick(p), Sys(db, Dispatching(Slot(p, k), hash, attempt)));
    assert [] + [Pick(p)] == [Pick(p)];
  }

  /** Foreman makes the workload while other threads act; then it is registered. */
  method DispatchPicked(store: StateStore, slot: Slot, version: Version, attempt: nat, c: Setting, meanwhile: seq<Action>)
    returns (r: Created, ghost trace: seq<Action>)
    requires Inv(Sys(store.Contents(), Dispatching(slot, version.hash, attempt)))
    requires ByOthers(meanwhile) && slot.index < |c.items(version.markdown)|
    modifies store
    ensures Explains(Sys(old(store.Contents()), Dispatching(slot, version.hash, attempt)), trace, Sys(store.Contents(), Idle))
    ensures if !c.reachable then r == Aborted && After(old(store.Contents()), meanwhile, store.Contents())
            else exists late :: Registers(old(store.Contents()), late, slot.plan, slot.index, attempt, version, c, meanwhile, r,
                                     store.Contents())
  {
    ghost var picked := Sys(store.Contents(), Dispatching(slot, version.hash, attempt));
    hide Inv, Explains, Run, Step, ReconcilerStep, ByOthers, After, Started, Tables.RegisterWorkload, SlotTaken, Naming.WorkloadName;
    Let(store, meanwhile, picked.thread);
    ghost var later := Sys(store.Contents(), picked.thread);
    trace := meanwhile;
    if !c.reachable {
      StepAnytime(later.db, later.thread, "", "", "", NeedsInput);
      ExplainsNow(picked, trace, later, Crash, Sys(store.Contents(), Idle));
      trace := trace + [Crash];
      return Aborted, trace;
    }
    var n := Naming.WorkloadName(slot.plan, version.hash, Some(slot.index + 1), attempt);
    StepDispatching(later.db, slot.plan, slot, version.hash, attempt, n, c.phase);
    ExplainsGood(picked, trace, later);
    PickedHasRow(later.db, slot, version.hash, attempt);
    RegisteredIsStarted(later.db, n, slot.plan, slot.index, c.phase);
    var registered := store.RegisterWorkload(n, slot.plan, slot.index, c.phase);
    ExplainsNow(picked, trace, later, Dispatch(n, c.phase), Sys(store.Contents(), Idle));
    trace := trace + [Dispatch(n, c.phase)];
    r := if registered.Ok? then Created(n, slot.index, version.hash, attempt, c.items(version.markdown)[slot.index]) else Aborted;
    assert Registers(picked.db, later.db, slot.plan, slot.index, attempt, version, c, meanwhile, r, store.Contents());
  }

  /** Other threads leave a plan that has deliverables with exactly those rows. */
  lemma {:induction false} OthersKeepRows(s: Sys, actions: seq<Action>)
    requires forall a | a in actions :: !OfReconciler(a)
    ensures RowsKept(s.db, Run(s, actions).db)
    decreases |actions|
  {
    if actions != [] {
      OtherKeepsRows(s.db, actions[0]);
      OthersKeepRows(Step(s, actions[0]), actions[1..]);
      hide OtherStep;
      var db, db1, db2 := s.db, Step(s, actions[0]).db, Run(s, actions).db;
      forall p ensures Rows(db, p) == Rows(db2, p) || (Rows(db, p) == [] && forall d | d in Rows(db2, p) :: d.state == Pending) {
        assert Rows(db, p) == Rows(db1, p) || Rows(db, p) == [];
        assert Rows(db1, p) == Rows(db2, p) || Rows(db1, p) == [];
      }
    }
  }

  lemma SameQueueSameNext(db: Db, db': Db, p: PlanId)
    requires RowsKept(db, db') && Tables.NextDeliverable(db, p).Some?
    ensures Rows(db', p) == Rows(db, p) && Tables.NextDeliverable(db', p) == Tables.NextDeliverable(db, p)
  {
    assert Rows(db, p) != [];
  }

  /** A deliverable that can be retried is the next one once it is reset, and is the row the issue names. */
  lemma ResetIsNext(db: Db, p: PlanId, issue: string) returns (k: nat)
    requires Inv(Sys(db, Idle)) && PrepareRetry(db, p, issue).Ok?
    ensures FindUrl(Rows(db, p), issue, 0) == Some(k)
    ensures var db' := PrepareRetry(db, p, issue).value;
            Tables.NextDeliverable(db', p) == Some(k) && Rows(db', p)[k] == RetryRow(Rows(db, p)[k])
  {
    k := FindUrl(Rows(db, p), issue, 0).value;
    var rows := Rows(PrepareRetry(db, p, issue).value, p);
    assert rows == Rows(db, p)[k := RetryRow(Rows(db, p)[k])];
    assert SerialRows(Rows(db, p));
    hide PrepareRetry;
    forall i | 0 <= i < k ensures rows[i].state == Merged {}
    assert Runnable(rows, k);
    var front := FirstRunnable(rows, 0);
    assert front.Some? && !(front.value < k) && !(k < front.value);
  }

  /** A retry is of the failed deliverable the issue names, under the name of its next attempt. */
  predicate IsRetryOf(db: Db, p: PlanId, issue: string, r: Created)
    requires r.Created?
  {
    && FindUrl(Rows(db, p), issue, 0) == Some(r.index)
    && Rows(db, p)[r.index].state == Broken
    && r.attempt == Rows(db, p)[r.index].attempt + 1
    && r.name == Naming.WorkloadName(p, r.hash, Some(r.index + 1), r.attempt)
  }

  /** The outcomes of retry_workload: refused, or the failed row is reset, other threads move, and then everything is as in
      create_workload for the same issue. */
  ghost predicate RetryOutcome(db: Db, p: PlanId, issue: string, c: Setting, m: Moments, r: Created, db': Db) {
    match PrepareRetry(db, p, issue)
    case Err(_) => r == Aborted && db' == db
    case Ok(reset) =>
      exists read :: After(reset, m.third, read)
                && CreateOutcome(read, p, if p in read.plans then read.plans[p].state else Cancelled, issue, c, m, r, db')
  }

  /** retry_workload: reset the failed deliverable, then create its next attempt on a fresh read of the plan. The reset
      row is the only one that can come next, so it is the one dispatched. */
  method RetryWorkload(store: StateStore, p: PlanId, issue: string, c: Setting, m: Moments)
    returns (r: Created, ghost trace: seq<Action>)
    requires Inv(Sys(store.Contents(), Idle)) && Elsewhere(m)
    modifies store
    ensures Explains(Sys(old(store.Contents()), Idle), trace, Sys(store.Contents(), Idle))
    ensures RetryOutcome(old(store.Contents()), p, issue, c, m, r, store.Contents())
  {
    hide Inv, StillHolds, Explains, Step, Run, PrepareRetry, NextDeliverable, Rows, CreateOutcome, ByOthers, After;
    ghost var before := store.Contents();
    ghost var start := Sys(before, Idle);
    ExplainsNothing(start);
    StepDispatching(start.db, p, Slot(p, 0), "", 0, issue, "");
    var reset := store.PrepareDeliverableRetry(p, issue);
    ghost var here := Sys(store.Contents(), Idle);
    ExplainsNow(start, [], start, Retry(p, issue), here);
    trace := [] + [Retry(p, issue)];
    if reset.Err? {
      return Aborted, trace;
    }
    ghost var k := ResetIsNext(before, p, issue);
    Wait(store, p, m.third);
    ghost var read := Sys(store.Contents(), Idle);
    ExplainsMore(start, trace, here, m.third, read);
    trace := trace + m.third;
    ExplainsGood(start, trace, read);
    var stateAtTurn := if p in store.plans then store.plans[p].state else Cancelled;
    var created, more := CreateWorkload(store, p, stateAtTurn, issue, c, m);
    ExplainsMore(start, trace, read, more, Sys(store.Contents(), Idle));
    trace := trace + more;
    r := created;
  }

  /** What a retry creates is the failed deliverable the issue names, at its next attempt and under that attempt's name;
      there is always something to create, and only a plan that other threads took out of execution is refused. */
  lemma RetryIsNextAttempt(db: Db, p: PlanId, issue: string, c: Setting, m: Moments, r: Created, db': Db)
    requires Inv(Sys(db, Idle)) && Elsewhere(m) && RetryOutcome(db, p, issue, c, m, r, db')
    ensures r.Created? ==> IsRetryOf(db, p, issue, r) && Started(db', p, r.index, r.name, c.phase)
    ensures r != Nothing && (m.third == [] && p in db.plans ==> r != Denied)
  {
    hide Inv, Run, PrepareRetry, NextDeliverable, Rows, StartOutcome, Started;
    if PrepareRetry(db, p, issue).Ok? {
      var reset := PrepareRetry(db, p, issue).value;
      var k := ResetIsNext(db, p, issue);
      var read :| After(reset, m.third, read)
        && CreateOutcome(read, p, if p in read.plans then read.plans[p].state else Cancelled, issue, c, m, r, db');
      OthersKeepRows(Sys(reset, Idle), m.third);
      SameQueueSameNext(reset, read, p);
      ResetPlan(db, p, issue);
      RunNone(Sys(reset, Idle));
      if p in read.plans && read.plans[p].state in {Decomposed, PlanState.Running} {
        var mid :| After(read, m.first, mid) && StartOutcome(mid, p, k, Rows(read, p)[k].attempt, c, m.second, r, db');
        StartGoesOn(mid, p, k, Rows(read, p)[k].attempt, c, m.second, r, db');
      }
      if r.Created? {
        var version := CreatedIsNext(read, p, read.plans[p].state, issue, c, m, r, db');
      }
    }
  }

  lemma StartGoesOn(db: Db, p: PlanId, k: nat, attempt: nat, c: Setting, meanwhile: seq<Action>, r: Created, db': Db)
    requires StartOutcome(db, p, k, attempt, c, meanwhile, r, db')
    ensures r != Nothing && r != Denied
  {
    hide After, CurrentVersion, OnlyState, Started, SlotTaken;
  }

  lemma RunNone(s: Sys)
    ensures Run(s, []) == s
  {
  }

  lemma ResetPlan(db: Db, p: PlanId, issue: string)
    requires PrepareRetry(db, p, issue).Ok?
    ensures var reset := PrepareRetry(db, p, issue).value;
            var k := FindUrl(Rows(db, p), issue, 0).value;
            Rows(db, p)[k].state == Broken && RetryRow(Rows(db, p)[k]).issueUrl == issue
            && (p in db.plans ==> p in reset.plans && reset.plans[p].state == Decomposed)
  {
    hide ReferencedElsewhere;
  }
}
