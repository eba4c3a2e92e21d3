/** No plan in execution is stuck: from every reachable state the reconciler's own steps can finish it. */
module Progress {
  import opened Basics
  import opened Tables
  import opened Execution
  import opened Effects
  import opened PlanProgress
  import opened Correspondence
  import opened Naming

  /** A step of the reconciler as luna.py and matrix.py take it: nothing is picked of a plan that is not in execution, and a
      workload has its computed name. */
  ghost predicate Allowed(s: Sys, a: Action) {
    && OfReconciler(a) && FromGateway(s, a)
    && (a.Pick? ==> a.plan in s.db.plans && s.db.plans[a.plan].state in {Decomposed, PlanState.Running})
  }

  ghost predicate AllowedRun(s: Sys, actions: seq<Action>)
    decreases |actions|
  {
    actions != [] ==> Allowed(s, actions[0]) && AllowedRun(Step(s, actions[0]), actions[1..])
  }

  /** Some such steps lead from s to t. */
  ghost predicate Reaches(s: Sys, t: Sys) {
    exists actions :: AllowedRun(s, actions) && Run(s, actions) == t
  }

  lemma ReachesSelf(s: Sys)
    ensures Reaches(s, s)
  {
    assert AllowedRun(s, []) && Run(s, []) == s;
  }

  lemma {:induction false} AllowedAppend(s: Sys, a: seq<Action>, b: seq<Action>)
    requires AllowedRun(s, a) && AllowedRun(Run(s, a), b)
    ensures AllowedRun(s, a + b)
    decreases |a|
  {
    hide Step, Allowed;
    if a == [] {
      assert a + b == b;
    } else {
      assert (a + b)[1..] == a[1..] + b;
      AllowedAppend(Step(s, a[0]), a[1..], b);
    }
  }

  lemma ThenReaches(s: Sys, t: Sys, u: Sys)
    requires Reaches(s, t) && Reaches(t, u)
    ensures Reaches(s, u)
  {
    hide Step, Allowed;
    var a :| AllowedRun(s, a) && Run(s, a) == t;
    var b :| AllowedRun(t, b) && Run(t, b) == u;
    AllowedAppend(s, a, b);
    RunAppend(s, a, b);
  }

  lemma ThenStep(s: Sys, t: Sys, a: Action)
    requires Reaches(s, t) && Allowed(t, a)
    ensures Reaches(s, Step(t, a))
  {
    hide Step, Allowed, Run;
    RunOne(t, a);
    assert AllowedRun(t, [a]) by { assert [a][1..] == [] && AllowedRun(Step(t, a), []); }
    ThenReaches(s, t, Step(t, a));
  }

  /** Reached and sound. */
  ghost predicate Got(s: Sys, t: Sys, bound: nat) { Reaches(s, t) && Sound(t, bound) }

  lemma Go(s: Sys, t: Sys, bound: nat, a: Action, u: Sys)
    requires Got(s, t, bound) && 1 <= bound < ATTEMPT_LIMIT && Allowed(t, a) && Step(t, a) == u
    ensures Got(s, u, bound + 1)
  {
    hide Step, Sound, Reaches;
    ThenStep(s, t, a);
    hide Allowed;
    AllowedIsGateway(t, a);
    StepKeepsSound(t, a, bound);
  }

  lemma AllowedIsGateway(s: Sys, a: Action)
    requires Allowed(s, a)
    ensures FromGateway(s, a)
  {
  }

  lemma GotSelf(s: Sys, bound: nat)
    requires Sound(s, bound)
    ensures Got(s, s, bound)
  {
    ReachesSelf(s);
  }

  lemma CrashIs(db: Db, t: Thread)
    ensures Step(Sys(db, t), Crash) == Sys(db, Idle) && Allowed(Sys(db, t), Crash)
  {
  }

  /** The deliverable everything behind it waits for. */
  predicate Head(db: Db, p: PlanId, k: nat, state: ItemState) {
    HasRow(db, p, k) && Rows(db, p)[k].state == state && forall i | 0 <= i < k :: Rows(db, p)[i].state == Merged
  }

  /** p is executing, in this state, and its text can be read. */
  predicate InState(db: Db, p: PlanId, state: PlanState) {
    p in db.plans && db.plans[p].state == state && CurrentHash(db, p).Some?
  }

  /** Sound, and between two passes. */
  ghost predicate Resting(s: Sys, bound: nat) { Sound(s, bound) && 1 <= bound && s.thread == Idle }

  /** Row k is in a new state; the plan's other rows are the same. */
  predicate HeadMoved(db: Db, db': Db, p: PlanId, k: nat, state: ItemState) {
    && |Rows(db', p)| == |Rows(db, p)| && k < |Rows(db, p)| && Rows(db', p)[k].state == state
    && forall i | 0 <= i < |Rows(db, p)| && i != k :: Rows(db', p)[i] == Rows(db, p)[i]
  }

  lemma MovedHash(db: Db, db': Db, slot: Slot, d: Deliverable, p: PlanId)
    requires Moved(db, db', slot, d)
    ensures CurrentHash(db', p) == CurrentHash(db, p)
  {
  }

  lemma OnlyRowMoves(db: Db, db': Db, p: PlanId, k: nat, d: Deliverable)
    requires HasRow(db, p, k) && OnlyRow(db, db', p, k, d)
    ensures HeadMoved(db, db', p, k, d.state)
  {
    forall i | 0 <= i < |Rows(db, p)| && i != k ensures Rows(db', p)[i] == Rows(db, p)[i] {
      assert HasRow(db, p, i) && (p, i) != (p, k);
    }
  }

  lemma HeadIsNext(db: Db, p: PlanId, k: nat)
    requires Head(db, p, k, Pending)
    ensures Tables.NextDeliverable(db, p) == Some(k)
  {
    assert Runnable(Rows(db, p), k);
    var next := Tables.NextDeliverable(db, p).value;
    assert !(next < k) && !(k < next);
  }

  // ----- from pending to running -----

  /** The next deliverable of a plan in execution can be started. */
  lemma CanStart(s: Sys, b: nat, p: PlanId, k: nat, state: PlanState) returns (t: Sys)
    requires Resting(s, b) && b + 2 < ATTEMPT_LIMIT && Head(s.db, p, k, Pending)
    requires InState(s.db, p, state) && state in {Decomposed, PlanState.Running}
    ensures Reaches(s, t) && Resting(t, b + 2) && InState(t.db, p, PlanState.Running)
    ensures HeadMoved(s.db, t.db, p, k, Active) && Head(t.db, p, k, Active)
  {
    hide *;
    RestingIs(s, b);
    GotSelf(s, b);
    var s1 := Picks(s, p, k, state);
    Go(s, s, b, Pick(p), s1);
    GotSound(s, s1, b + 1);
    var name := Dispatches(s1, b + 1);
    t := Sys(Commit(s.db, RegisterWorkload(s.db, name, p, k, "Pending")), Idle);
    Go(s, s1, b + 1, Dispatch(name, "Pending"), t);
    GotSound(s, t, b + 2);
    RestingIs(t, b + 2);
    StartedHead(s.db, p, k, name, state);
  }

  lemma RestingIs(s: Sys, bound: nat)
    ensures Resting(s, bound) <==> Sound(s, bound) && 1 <= bound && s.thread == Idle
  {
    hide Sound;
  }

  lemma GotSound(s: Sys, t: Sys, bound: nat)
    requires Got(s, t, bound)
    ensures Reaches(s, t) && Sound(t, bound)
  {
  }

  lemma Picks(s: Sys, p: PlanId, k: nat, state: PlanState) returns (t: Sys)
    requires s.thread == Idle && Head(s.db, p, k, Pending) && InState(s.db, p, state) && state in {Decomposed, PlanState.Running}
    ensures Allowed(s, Pick(p)) && Step(s, Pick(p)) == t
    ensures t.db == s.db && t.thread.Dispatching? && t.thread.slot == Slot(p, k)
  {
    HeadIsNext(s.db, p, k);
    t := Sys(s.db, Dispatching(Slot(p, k), CurrentHash(s.db, p).value, Rows(s.db, p)[k].attempt));
    hide Head, NextDeliverable;
  }

  lemma Dispatches(s: Sys, bound: nat) returns (name: string)
    requires Sound(s, bound) && bound < ATTEMPT_LIMIT && s.thread.Dispatching?
    ensures var slot := s.thread.slot;
            && name !in s.db.workloads && RegisterWorkload(s.db, name, slot.plan, slot.index, "Pending").Ok?
            && Allowed(s, Dispatch(name, "Pending"))
            && Step(s, Dispatch(name, "Pending"))
               == Sys(Commit(s.db, RegisterWorkload(s.db, name, slot.plan, slot.index, "Pending")), Idle)
  {
    hide RegisterWorkload, SlotName, Sound;
    name := SlotName(s.thread.slot, s.thread.hash, s.thread.attempt);
    DispatchIsFresh(s, name, "Pending", bound);
  }

  lemma StartedHead(db: Db, p: PlanId, k: nat, name: string, state: PlanState)
    requires Head(db, p, k, Pending) && InState(db, p, state) && name !in db.workloads
    requires RegisterWorkload(db, name, p, k, "Pending").Ok?
    ensures var db' := Commit(db, RegisterWorkload(db, name, p, k, "Pending"));
            HeadMoved(db, db', p, k, Active) && Head(db', p, k, Active) && InState(db', p, PlanState.Running)
  {
    var db' := RegisterWorkload(db, name, p, k, "Pending").value;
    var d := Rows(db, p)[k].(state := Active, workload := Some(name));
    StartEffect(db, name, p, k, "Pending");
    RegisterMoves(db, Slot(p, k), name, "Pending");
    hide RegisterWorkload, CurrentHash, Moved, OnlyRow;
    OnlyRowMoves(db, db', p, k, d);
    MovedHash(db, db', Slot(p, k), d, p);
  }

  // ----- lists that begin with a given entry -----

  lemma {:induction false} ListOf<T>(all: set<T>) returns (list: seq<T>)
    ensures (forall x :: x in list <==> x in all) && forall i, j | 0 <= i < j < |list| :: list[i] != list[j]
    decreases |all|
  {
    list := [];
    if all != {} {
      var x :| x in all;
      list := ListOf(all - {x});
      list := [x] + list;
    }
  }

  lemma ListFrom<T>(all: set<T>, first: T) returns (list: seq<T>)
    requires first in all
    ensures list != [] && list[0] == first
    ensures (forall x :: x in list <==> x in all) && forall i, j | 0 <= i < j < |list| :: list[i] != list[j]
  {
    list := ListOf(all - {first});
    list := [first] + list;
  }

  /** active_workloads may list a running workload first. */
  lemma ActiveFirst(db: Db, name: string) returns (names: seq<string>)
    requires ActiveWorkload(db, name)
    ensures ListsActive(db, names) && names != [] && names[0] == name
  {
    names := ListFrom((set n | n in db.workloads && ActiveWorkload(db, n)), name);
  }

  function Slots(db: Db): set<Slot> { set p, k: nat | p in db.items && k < |db.items[p]| :: Slot(p, k) }

  /** pending_merges may list a row that waits for its merge first. */
  lemma PendingFirst(db: Db, slot: Slot) returns (slots: seq<Slot>)
    requires At(db, slot, MergePending)
    ensures ListsPendingMerges(db, slots) && slots != [] && slots[0] == slot
  {
    var all := set s | s in Slots(db) && At(db, s, MergePending);
    assert forall s: Slot :: At(db, s, MergePending) ==> s in Slots(db);
    slots := ListFrom(all, slot);
  }

  // ----- from running to merged -----

  /** A running deliverable can be merged, and so completes a plan whose other rows are. */
  lemma CanMerge(s: Sys, b: nat, p: PlanId, k: nat, pull: PullRequest) returns (t: Sys)
    requires Resting(s, b) && b + 4 < ATTEMPT_LIMIT && Head(s.db, p, k, Active) && InState(s.db, p, PlanState.Running)
    ensures Reaches(s, t) && Resting(t, b + 4) && HeadMoved(s.db, t.db, p, k, Merged)
    ensures InState(t.db, p, if k + 1 == |Rows(s.db, p)| then Completed else PlanState.Running)
  {
    hide *;
    RestingIs(s, b);
    GotSelf(s, b);
    var names, rest := ScanIsHead(s, b, p, k);
    var db2 := BeginMerge(s.db, p, k, pull);
    var s1, s2 := Sys(s.db, Scanning([Slot(p, k)] + rest)), Sys(db2, Merging(Slot(p, k), rest));
    var s3 := Sys(FinishMerge(db2, p, k, true), Scanning(rest));
    t := Sys(s3.db, Idle);
    MergeIs(s.db, Slot(p, k), rest, pull);
    FinishIs(db2, Slot(p, k), rest);
    CrashIs(s3.db, s3.thread);
    Go(s, s, b, Scan(names), s1);
    Go(s, s1, b + 1, ScanMerge(pull, true), s2);
    Go(s, s2, b + 2, MergeAtOnce, s3);
    Go(s, s3, b + 3, Crash, t);
    GotSound(s, t, b + 4);
    RestingIs(t, b + 4);
    HeadSerial(s, b, p);
    BegunHead(s.db, p, k, pull);
    MergedHead(db2, p, k);
    MovedTwice(s.db, db2, t.db, p, k, MergePending, Merged);
  }

  lemma MovedTwice(a: Db, b: Db, c: Db, p: PlanId, k: nat, x: ItemState, y: ItemState)
    requires HeadMoved(a, b, p, k, x) && HeadMoved(b, c, p, k, y)
    ensures HeadMoved(a, c, p, k, y) && |Rows(a, p)| == |Rows(b, p)|
  {
  }

  lemma ActiveHead(s: Sys, b: nat, p: PlanId, k: nat) returns (name: string)
    requires Resting(s, b) && Head(s.db, p, k, Active) && InState(s.db, p, PlanState.Running)
    ensures ActiveWorkload(s.db, name) && name in s.db.workloads && SlotOf(s.db, name) == Slot(p, k)
  {
    assert HasSlot(s.db, Slot(p, k)) && RowAgrees(s.db, Slot(p, k));
    name := Rows(s.db, p)[k].workload.value;
  }

  lemma ScanIsHead(s: Sys, b: nat, p: PlanId, k: nat) returns (names: seq<string>, rest: seq<Slot>)
    requires Resting(s, b) && Head(s.db, p, k, Active) && InState(s.db, p, PlanState.Running)
    ensures Step(s, Scan(names)) == Sys(s.db, Scanning([Slot(p, k)] + rest)) && Allowed(s, Scan(names))
  {
    hide *;
    RestingIs(s, b);
    var name := ActiveHead(s, b, p, k);
    names := ActiveFirst(s.db, name);
    var todo := ScanIs(s, names);
    rest := todo[1..];
    assert todo == [todo[0]] + rest;
  }

  lemma MergeIs(db: Db, slot: Slot, rest: seq<Slot>, pull: PullRequest)
    ensures Step(Sys(db, Scanning([slot] + rest)), ScanMerge(pull, true))
         == Sys(BeginMerge(db, slot.plan, slot.index, pull), Merging(slot, rest))
    ensures Allowed(Sys(db, Scanning([slot] + rest)), ScanMerge(pull, true))
  {
    hide BeginMerge;
    assert ([slot] + rest)[1..] == rest;
  }

  lemma FinishIs(db: Db, slot: Slot, rest: seq<Slot>)
    ensures Step(Sys(db, Merging(slot, rest)), MergeAtOnce)
         == Sys(FinishMerge(db, slot.plan, slot.index, true), Scanning(rest))
    ensures Allowed(Sys(db, Merging(slot, rest)), MergeAtOnce)
  {
    hide FinishMerge;
  }

  lemma StillSerial(rows: seq<Deliverable>, rows': seq<Deliverable>, k: nat)
    requires SerialRows(rows) && |rows'| == |rows| && k < |rows| && rows[k].state !in {Merged, Pending}
    requires rows'[k].state != Pending && rows'[k].state != Merged
    requires forall i | 0 <= i < |rows| && i != k :: rows'[i] == rows[i]
    ensures SerialRows(rows')
  {
  }

  lemma BegunHead(db: Db, p: PlanId, k: nat, pull: PullRequest)
    requires Head(db, p, k, Active) && InState(db, p, PlanState.Running) && SerialRows(Rows(db, p))
    ensures var db' := BeginMerge(db, p, k, pull);
            && HeadMoved(db, db', p, k, MergePending) && Head(db', p, k, MergePending) && InState(db', p, PlanState.Running)
            && SerialRows(Rows(db', p))
  {
    var d := Rows(db, p)[k].(state := MergePending, pull := Some(pull));
    BegunEffect(db, p, k, pull);
    BeginMergeMoves(db, Slot(p, k), pull);
    hide BeginMerge, OnlyRow, CurrentHash, Moved;
    OnlyRowMoves(db, BeginMerge(db, p, k, pull), p, k, d);
    StillSerial(Rows(db, p), Rows(BeginMerge(db, p, k, pull), p), k);
    MovedHash(db, BeginMerge(db, p, k, pull), Slot(p, k), d, p);
  }

  /** Merging the head completes the plan exactly when it is the last. */
  lemma MergedHead(db: Db, p: PlanId, k: nat)
    requires Head(db, p, k, MergePending) && InState(db, p, PlanState.Running) && SerialRows(Rows(db, p))
    ensures var db' := FinishMerge(db, p, k, true);
            && HeadMoved(db, db', p, k, Merged)
            && InState(db', p, if k + 1 == |Rows(db, p)| then Completed else PlanState.Running)
  {
    var rows, d := Rows(db, p), Rows(db, p)[k].(state := Merged);
    MergedEffect(db, p, k);
    FinishMoves(db, Slot(p, k), true);
    assert k + 1 < |rows| ==> rows[k + 1].state == Pending;
    assert OthersMerged(rows, k) <==> k + 1 == |rows|;
    hide FinishMerge, OnlyRow, CurrentHash, Moved;
    OnlyRowMoves(db, FinishMerge(db, p, k, true), p, k, d);
    MovedHash(db, FinishMerge(db, p, k, true), Slot(p, k), d, p);
  }

  // ----- a merge that is waited for -----

  lemma {:induction false} CanSkip(s: Sys, t: Sys, b: nat, todo: seq<Slot>)
    requires Got(s, t, b) && t.thread == Scanning(todo)
    ensures Got(s, Sys(t.db, Scanning([])), b)
    decreases |todo|
  {
    if todo != [] {
      var u := Sys(t.db, Scanning(todo[1..]));
      SkipKeeps(t, b);
      assert Step(t, ScanNext) == u;
      GotSound(s, t, b);
      ThenStep(s, t, ScanNext);
      CanSkip(s, u, b, todo[1..]);
    }
  }

  lemma SkipKeeps(t: Sys, b: nat)
    requires Sound(t, b) && t.thread.Scanning? && t.thread.todo != []
    ensures Sound(Sys(t.db, Scanning(t.thread.todo[1..])), b) && Allowed(t, ScanNext)
  {
    StepKeepsInv(t, ScanNext);
  }

  /** A merge that GitHub has can come through. */
  lemma CanPoll(s: Sys, b: nat, p: PlanId, k: nat) returns (t: Sys)
    requires Resting(s, b) && b + 4 < ATTEMPT_LIMIT && Head(s.db, p, k, MergePending) && InState(s.db, p, PlanState.Running)
    ensures Reaches(s, t) && Resting(t, b + 4) && HeadMoved(s.db, t.db, p, k, Merged)
    ensures InState(t.db, p, if k + 1 == |Rows(s.db, p)| then Completed else PlanState.Running)
  {
    hide *;
    RestingIs(s, b);
    GotSelf(s, b);
    var names := ListActive(s.db);
    var slots := HeadFirst(s.db, p, k);
    var todo := ScanIs(s, names);
    PollIs(s.db, slots);
    PollFinishIs(s.db, slots);
    var s1, s2, s3 := Sys(s.db, Scanning(todo)), Sys(s.db, Scanning([])), Sys(s.db, Polling(slots));
    var s4 := Sys(FinishMerge(s.db, p, k, true), Polling(slots[1..]));
    CrashIs(s4.db, s4.thread);
    t := Sys(s4.db, Idle);
    Go(s, s, b, Scan(names), s1);
    CanSkip(s, s1, b + 1, todo);
    Go(s, s2, b + 1, Poll(slots), s3);
    Go(s, s3, b + 2, PollFinish(true), s4);
    Go(s, s4, b + 3, Crash, t);
    GotSound(s, t, b + 4);
    RestingIs(t, b + 4);
    HeadSerial(s, b, p);
    MergedHead(s.db, p, k);
  }

  lemma HeadFirst(db: Db, p: PlanId, k: nat) returns (slots: seq<Slot>)
    requires Head(db, p, k, MergePending)
    ensures ListsPendingMerges(db, slots) && slots != [] && slots[0] == Slot(p, k)
  {
    slots := PendingFirst(db, Slot(p, k));
  }

  lemma HeadSerial(s: Sys, b: nat, p: PlanId)
    requires Resting(s, b)
    ensures SerialRows(Rows(s.db, p))
  {
  }

  lemma ListActive(db: Db) returns (names: seq<string>)
    ensures ListsActive(db, names)
  {
    names := ListOf(set n | n in db.workloads && ActiveWorkload(db, n));
  }

  lemma ScanIs(s: Sys, names: seq<string>) returns (todo: seq<Slot>)
    requires s.thread == Idle && ListsActive(s.db, names)
    ensures Step(s, Scan(names)) == Sys(s.db, Scanning(todo)) && Allowed(s, Scan(names))
    ensures names != [] && names[0] in s.db.workloads ==> todo != [] && todo[0] == SlotOf(s.db, names[0])
  {
    assert forall n | n in names :: ActiveWorkload(s.db, n);
    todo := SlotsOf(s.db, names);
  }

  lemma PollIs(db: Db, slots: seq<Slot>)
    requires ListsPendingMerges(db, slots)
    ensures Step(Sys(db, Scanning([])), Poll(slots)) == Sys(db, Polling(slots)) && Allowed(Sys(db, Scanning([])), Poll(slots))
  {
    hide ListsPendingMerges;
  }

  lemma PollFinishIs(db: Db, slots: seq<Slot>)
    requires slots != []
    ensures Step(Sys(db, Polling(slots)), PollFinish(true))
         == Sys(FinishMerge(db, slots[0].plan, slots[0].index, true), Polling(slots[1..]))
    ensures Allowed(Sys(db, Polling(slots)), PollFinish(true))
  {
    hide FinishMerge;
  }

  // ----- a deliverable that failed -----

  /** A failed deliverable can be tried again, whatever state its plan was left in. */
  lemma CanRetry(s: Sys, b: nat, p: PlanId, k: nat) returns (t: Sys)
    requires Resting(s, b) && b + 1 < ATTEMPT_LIMIT && Head(s.db, p, k, Broken) && OneRowEach(Rows(s.db, p))
    requires p in s.db.plans && CurrentHash(s.db, p).Some?
    ensures Reaches(s, t) && Resting(t, b + 1) && HeadMoved(s.db, t.db, p, k, Pending) && Head(t.db, p, k, Pending)
    ensures InState(t.db, p, Decomposed)
  {
    hide *;
    RestingIs(s, b);
    GotSelf(s, b);
    var url := RetryIsGranted(s, b, p, k);
    t := Sys(Commit(s.db, PrepareRetry(s.db, p, url)), Idle);
    Go(s, s, b, Retry(p, url), t);
    GotSound(s, t, b + 1);
    RestingIs(t, b + 1);
    RetriedHead(s.db, p, url, k);
  }

  lemma RetryIsGranted(s: Sys, b: nat, p: PlanId, k: nat) returns (url: string)
    requires Resting(s, b) && Head(s.db, p, k, Broken) && OneRowEach(Rows(s.db, p))
    ensures FirstFor(Rows(s.db, p), url, k) && PrepareRetry(s.db, p, url).Ok?
    ensures Allowed(s, Retry(p, url)) && Step(s, Retry(p, url)) == Sys(Commit(s.db, PrepareRetry(s.db, p, url)), Idle)
  {
    url := Rows(s.db, p)[k].issueUrl;
    RetryGranted(s.db, p, url, k);
    RetryIs(s, p, url);
    forall q, j: nat | HasRow(s.db, q, j) && (q, j) != (p, k)
      ensures Rows(s.db, p)[k].workload.Some? ==> Rows(s.db, q)[j].workload != Rows(s.db, p)[k].workload
    {
      OwnWorkload(s, b, p, k, q, j);
    }
    hide PrepareRetry, Resting, Allowed, Step;
  }

  lemma RetryIs(s: Sys, p: PlanId, url: string)
    requires s.thread == Idle
    ensures Allowed(s, Retry(p, url)) && Step(s, Retry(p, url)) == Sys(Commit(s.db, PrepareRetry(s.db, p, url)), Idle)
  {
    hide PrepareRetry;
  }

  /** No two rows name the same workload. */
  lemma OwnWorkload(s: Sys, b: nat, p: PlanId, k: nat, q: PlanId, j: nat)
    requires Resting(s, b) && HasRow(s.db, p, k) && HasRow(s.db, q, j) && (q, j) != (p, k)
    ensures Rows(s.db, p)[k].workload.Some? ==> Rows(s.db, q)[j].workload != Rows(s.db, p)[k].workload
  {
    assert HasSlot(s.db, Slot(p, k)) && RowAgrees(s.db, Slot(p, k));
    assert HasSlot(s.db, Slot(q, j)) && RowAgrees(s.db, Slot(q, j));
    hide Inv, InRange, NameFor;
  }

  lemma RetriedHead(db: Db, p: PlanId, url: string, k: nat)
    requires Head(db, p, k, Broken) && p in db.plans && CurrentHash(db, p).Some?
    requires FirstFor(Rows(db, p), url, k) && PrepareRetry(db, p, url).Ok?
    ensures var db' := Commit(db, PrepareRetry(db, p, url));
            HeadMoved(db, db', p, k, Pending) && Head(db', p, k, Pending) && InState(db', p, Decomposed)
  {
    var db' := PrepareRetry(db, p, url).value;
    var d := Deliverable(url, Pending, None, None, Rows(db, p)[k].attempt + 1);
    RetryEffect(db, p, url, k);
    SamePlanHash(db, db', p, url, k);
    hide PrepareRetry, CurrentHash, OnlyRow;
    OnlyRowMoves(db, db', p, k, d);
  }

  lemma SamePlanHash(db: Db, db': Db, p: PlanId, url: string, k: nat)
    requires PrepareRetry(db, p, url) == Ok(db')
    ensures CurrentHash(db', p) == CurrentHash(db, p)
  {
    RetryMoves(db, p, url);
    hide PrepareRetry;
    MovedHash(db, db', Slot(p, FindUrl(Rows(db, p), url, 0).value), RetryRow(Rows(db, p)[FindUrl(Rows(db, p), url, 0).value]), p);
  }

  // ----- to the end -----

  predicate Finishes(db: Db, p: PlanId) {
    p in db.plans && db.plans[p].state == Completed && Rows(db, p) != [] && AllMerged(Rows(db, p))
  }

  /** After the head is merged: the plan is complete, or the next deliverable is the head. */
  lemma NextHead(db: Db, db': Db, p: PlanId, k: nat, state: ItemState)
    requires Head(db, p, k, state) && state != Merged && SerialRows(Rows(db, p)) && HeadMoved(db, db', p, k, Merged)
    requires InState(db', p, if k + 1 == |Rows(db, p)| then Completed else PlanState.Running)
    ensures k < |Rows(db, p)| == |Rows(db', p)|
    ensures if k + 1 == |Rows(db, p)| then Finishes(db', p) else Head(db', p, k + 1, Pending)
  {
  }

  lemma SameLength(a: Db, b: Db, p: PlanId, k: nat, state: ItemState)
    requires HeadMoved(a, b, p, k, state)
    ensures |Rows(b, p)| == |Rows(a, p)|
  {
  }

  /** From a running head on: merge it, then start and merge the rest in turn. */
  lemma {:induction false} CanFinishFrom(s: Sys, b: nat, p: PlanId, k: nat, state: ItemState) returns (t: Sys)
    requires Resting(s, b) && k < |Rows(s.db, p)| && b + 6 * (|Rows(s.db, p)| - k) < ATTEMPT_LIMIT
    requires state in {Active, MergePending} && Head(s.db, p, k, state) && InState(s.db, p, PlanState.Running)
    ensures Reaches(s, t) && Finishes(t.db, p)
    decreases |Rows(s.db, p)| - k
  {
    hide *;
    var u;
    if state == Active {
      u := CanMerge(s, b, p, k, PullRequest("", "", None));
    } else {
      u := CanPoll(s, b, p, k);
    }
    HeadSerial(s, b, p);
    NextHead(s.db, u.db, p, k, state);
    t := u;
    if k + 1 < |Rows(s.db, p)| {
      var v := CanStart(u, b + 4, p, k + 1, PlanState.Running);
      SameLength(u.db, v.db, p, k + 1, Active);
      t := CanFinishFrom(v, b + 6, p, k + 1, Active);
      ThenReaches(s, u, v);
      ThenReaches(s, v, t);
    }
  }

  /** The plan's head is something the reconciler goes on with: a failed deliverable, or, while the plan is decomposed or
      running, one that waits, runs, or is being merged. */
  predicate GoesOn(db: Db, p: PlanId, k: nat) {
    && p in db.plans && CurrentHash(db, p).Some? && HasRow(db, p, k)
    && (forall i | 0 <= i < k :: Rows(db, p)[i].state == Merged)
    && match Rows(db, p)[k].state
       case Pending => db.plans[p].state in {Decomposed, PlanState.Running}
       case Active => db.plans[p].state == PlanState.Running
       case MergePending => db.plans[p].state == PlanState.Running
       case Broken => true
       case Merged => false
  }

  lemma CanFinish(s: Sys, b: nat, p: PlanId, k: nat) returns (t: Sys)
    requires Resting(s, b) && b + 700 < ATTEMPT_LIMIT && GoesOn(s.db, p, k)
    requires |Rows(s.db, p)| <= 100 && OneRowEach(Rows(s.db, p))
    ensures Reaches(s, t) && Finishes(t.db, p)
  {
    if Rows(s.db, p)[k].state == Broken {
      var u := CanRetry(s, b, p, k);
      SameLength(s.db, u.db, p, k, Pending);
      t := CanFinishPending(u, b + 1, p, k, Decomposed);
      ThenReaches(s, u, t);
    } else if Rows(s.db, p)[k].state == Pending {
      t := CanFinishPending(s, b, p, k, s.db.plans[p].state);
    } else {
      t := CanFinishFrom(s, b, p, k, Rows(s.db, p)[k].state);
    }
  }

  lemma CanFinishPending(s: Sys, b: nat, p: PlanId, k: nat, state: PlanState) returns (t: Sys)
    requires Resting(s, b) && b + 2 + 6 * (|Rows(s.db, p)| - k) < ATTEMPT_LIMIT && k < |Rows(s.db, p)|
    requires Head(s.db, p, k, Pending) && InState(s.db, p, state) && state in {Decomposed, PlanState.Running}
    ensures Reaches(s, t) && Finishes(t.db, p)
  {
    hide *;
    var u := CanStart(s, b, p, k, state);
    SameLength(s.db, u.db, p, k, Active);
    t := CanFinishFrom(u, b + 2, p, k, Active);
    ThenReaches(s, u, t);
  }

  /** No dead end: in every reachable state a plan whose head goes on can be brought to completion with all its deliverables
      merged, by steps of the reconciler alone, started again if it had died. */
  lemma NoDeadEnd(actions: seq<Action>, p: PlanId, k: nat) returns (t: Sys)
    requires GatewayRun(INITIAL, actions) && |actions| + 800 < ATTEMPT_LIMIT && GoesOn(Run(INITIAL, actions).db, p, k)
    ensures Reaches(Run(INITIAL, actions), t) && Finishes(t.db, p)
  {
    hide *;
    var s := Run(INITIAL, actions);
    InitialSound();
    RunKeepsSound(INITIAL, actions, 1);
    GotSelf(s, 1 + |actions|);
    CrashIs(s.db, s.thread);
    var u := Sys(s.db, Idle);
    Go(s, s, 1 + |actions|, Crash, u);
    GotSound(s, u, 2 + |actions|);
    RestingIs(u, 2 + |actions|);
    AtMostHundred(u, 2 + |actions|, p);
    ReachableRows(actions, p);
    t := CanFinish(u, 2 + |actions|, p, k);
    ThenReaches(s, u, t);
  }

  lemma AtMostHundred(s: Sys, b: nat, p: PlanId)
    requires Resting(s, b)
    ensures |Rows(s.db, p)| <= 100
  {
  }

  lemma ReachableRows(actions: seq<Action>, p: PlanId)
    ensures OneRowEach(Rows(Run(INITIAL, actions).db, p))
  {
    hide Run;
    IssuesDiffer(INITIAL, actions, p);
  }
}
