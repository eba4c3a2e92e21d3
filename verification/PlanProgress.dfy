/** What the interleaved machine guarantees: serial execution, the lifecycle of a deliverable, merges for good. */
module PlanProgress {
  import opened Basics
  import opened Tables
  import opened Execution
  import opened Effects

  /** merged* (running | merge_pending | failed)? pending*, with m counting the merged prefix. */
  predicate SerialShape(rows: seq<Deliverable>, m: nat) {
    && m <= |rows|
    && (forall i | 0 <= i < m :: rows[i].state == Merged)
    && (m < |rows| ==> rows[m].state != Merged)
    && (forall j | m < j < |rows| :: rows[j].state == Pending)
  }

  lemma {:induction false} ShapeFrom(rows: seq<Deliverable>, m: nat)
    requires SerialRows(rows) && m <= |rows| && forall i | 0 <= i < m :: rows[i].state == Merged
    ensures exists n :: SerialShape(rows, n)
    decreases |rows| - m
  {
    if m < |rows| && rows[m].state == Merged {
      ShapeFrom(rows, m + 1);
    } else {
      assert SerialShape(rows, m);
    }
  }

  /** The pairwise discipline and the regular shape are the same thing. */
  lemma SerialIffShape(rows: seq<Deliverable>)
    ensures SerialRows(rows) <==> exists m :: SerialShape(rows, m)
  {
    if SerialRows(rows) { ShapeFrom(rows, 0); }
  }

  /** In every reachable state every plan executes serially. */
  lemma SerialExecution(actions: seq<Action>, p: PlanId)
    ensures exists m :: SerialShape(Rows(Run(INITIAL, actions).db, p), m)
  {
    RunKeepsInv(INITIAL, actions);
    SerialIffShape(Rows(Run(INITIAL, actions).db, p));
  }

  /** In every reachable state a completed plan, or one paused out of completed, has only merged deliverables. */
  lemma FinishedMeansMerged(actions: seq<Action>, p: PlanId)
    ensures var db := Run(INITIAL, actions).db;
            (p in db.plans && db.plans[p].state == Completed) ||
            (p in db.plans && db.plans[p].state == Paused && p in db.controls && db.controls[p] == Completed)
            ==> Rows(db, p) != [] && AllMerged(Rows(db, p))
  {
    RunKeepsInv(INITIAL, actions);
  }

  /** What one step may do to one deliverable: nothing, open it, or move it along the lifecycle. */
  predicate Lifecycle(d: Deliverable, d': Deliverable) {
    && d'.issueUrl == d.issueUrl
    && (d' == d
        || (d'.attempt == d.attempt && d.state == Pending && d'.state == Active)
        || (d'.attempt == d.attempt && d.state == Active && d'.state in {MergePending, Broken})
        || (d'.attempt == d.attempt && d.state == MergePending && d'.state in {Merged, Broken})
        || (d'.attempt == d.attempt + 1 && d.state == Broken && d'.state == Pending))
  }

  ghost predicate RowsFollow(rows: seq<Deliverable>, rows': seq<Deliverable>) {
    |rows| == |rows'| && forall i | 0 <= i < |rows| :: Lifecycle(rows[i], rows'[i])
  }

  lemma MoveFollows(db: Db, db': Db, s: Slot, d: Deliverable, p: PlanId)
    requires Moved(db, db', s, d) && Lifecycle(RowAt(db, s), d)
    ensures RowsFollow(Rows(db, p), Rows(db', p))
  {
  }

  ghost predicate OneFollows(db: Db, db': Db, s: Slot) {
    exists d :: Moved(db, db', s, d) && Lifecycle(RowAt(db, s), d)
  }

  /** A reconciler step leaves the deliverables alone or moves one of them along its lifecycle. */
  ghost predicate Follows(db: Db, db': Db) {
    db' == db || exists slot :: OneFollows(db, db', slot)
  }

  lemma ScanFailFollows(s: Sys)
    requires Inv(s)
    ensures Follows(s.db, Step(s, ScanFail).db)
  {
    if s.thread.Scanning? && s.thread.todo != [] {
      HeadAndTail(s.db, s.thread.todo, Active);
      FailMoves(s.db, s.thread.todo[0]);
      assert OneFollows(s.db, Step(s, ScanFail).db, s.thread.todo[0]);
    }
  }

  lemma ScanMergeFollows(s: Sys, pull: PullRequest, atOnce: bool)
    requires Inv(s)
    ensures Follows(s.db, Step(s, ScanMerge(pull, atOnce)).db)
  {
    if s.thread.Scanning? && s.thread.todo != [] {
      HeadAndTail(s.db, s.thread.todo, Active);
      BeginMergeMoves(s.db, s.thread.todo[0], pull);
      assert OneFollows(s.db, Step(s, ScanMerge(pull, atOnce)).db, s.thread.todo[0]);
    }
  }

  lemma FinishFollows(db: Db, slot: Slot, merged: bool)
    requires At(db, slot, MergePending)
    ensures Follows(db, FinishMerge(db, slot.plan, slot.index, merged))
  {
    FinishMoves(db, slot, merged);
    assert OneFollows(db, FinishMerge(db, slot.plan, slot.index, merged), slot);
  }

  lemma PollFinishFollows(s: Sys, merged: bool)
    requires Inv(s)
    ensures Follows(s.db, Step(s, PollFinish(merged)).db)
  {
    if s.thread.Polling? && s.thread.todo != [] {
      HeadAndTail(s.db, s.thread.todo, MergePending);
      FinishFollows(s.db, s.thread.todo[0], merged);
    }
  }

  lemma DispatchFollows(s: Sys, name: string, phase: string)
    requires Inv(s)
    ensures Follows(s.db, Step(s, Dispatch(name, phase)).db)
  {
    if s.thread.Dispatching? {
      var slot := s.thread.slot;
      if RegisterWorkload(s.db, name, slot.plan, slot.index, phase).Ok? {
        RegisterMoves(s.db, slot, name, phase);
        assert OneFollows(s.db, RegisterWorkload(s.db, name, slot.plan, slot.index, phase).value, slot);
      }
    }
  }

  lemma RetryFollows(s: Sys, p: PlanId, url: string)
    requires Inv(s)
    ensures Follows(s.db, Step(s, Retry(p, url)).db)
  {
    if s.thread.Idle? && PrepareRetry(s.db, p, url).Ok? {
      RetryMoves(s.db, p, url);
      assert OneFollows(s.db, PrepareRetry(s.db, p, url).value, Slot(p, FindUrl(Rows(s.db, p), url, 0).value));
    }
  }

  lemma ReconcilerFollows(s: Sys, a: Action)
    requires Inv(s) && OfReconciler(a)
    ensures Follows(s.db, Step(s, a).db)
  {
    match a
    case ScanFail => ScanFailFollows(s);
    case ScanMerge(pull, atOnce) => ScanMergeFollows(s, pull, atOnce);
    case MergeAtOnce => if s.thread.Merging? { FinishFollows(s.db, s.thread.slot, true); }
    case PollFinish(merged) => PollFinishFollows(s, merged);
    case Dispatch(name, phase) => DispatchFollows(s, name, phase);
    case Retry(p, url) => RetryFollows(s, p, url);
    case _ =>
  }

  /** Once a plan has deliverables, every step keeps them all and moves each only along its lifecycle. */
  lemma StepFollowsLifecycle(s: Sys, a: Action, p: PlanId)
    requires Inv(s) && Rows(s.db, p) != []
    ensures RowsFollow(Rows(s.db, p), Rows(Step(s, a).db, p))
  {
    var db, db' := s.db, Step(s, a).db;
    if !OfReconciler(a) {
      OtherKeepsRows(db, a);
      assert Rows(db, p) == Rows(db', p);
    } else {
      ReconcilerFollows(s, a);
      if db' != db {
        var slot :| OneFollows(db, db', slot);
        var d :| Moved(db, db', slot, d) && Lifecycle(Rows(db, slot.plan)[slot.index], d);
        MoveFollows(db, db', slot, d, p);
      }
    }
  }

  /** A merge is never undone, and no deliverable is ever dropped, over any continuation of any run. */
  lemma {:induction false} MergedForever(s: Sys, actions: seq<Action>, p: PlanId, k: nat)
    requires Inv(s) && HasRow(s.db, p, k)
    ensures HasRow(Run(s, actions).db, p, k)
    ensures Rows(Run(s, actions).db, p)[k].issueUrl == Rows(s.db, p)[k].issueUrl
    ensures Rows(Run(s, actions).db, p)[k].attempt >= Rows(s.db, p)[k].attempt
    ensures Rows(s.db, p)[k].state == Merged ==> Rows(Run(s, actions).db, p)[k] == Rows(s.db, p)[k]
    decreases |actions|
  {
    if actions != [] {
      StepKeepsInv(s, actions[0]);
      StepFollowsLifecycle(s, actions[0], p);
      MergedForever(Step(s, actions[0]), actions[1..], p, k);
    }
  }

  /** plans_ready_to_dispatch and next_deliverable agree, so the clause about active deliverables is implied. */
  lemma QueryAgreement(actions: seq<Action>, p: PlanId)
    ensures var db := Run(INITIAL, actions).db;
            ReadyToDispatch(db, p)
            <==> p in db.plans && db.plans[p].state in {Decomposed, PlanState.Running} && NextDeliverable(db, p).Some?
  {
    RunKeepsInv(INITIAL, actions);
    var rows := Rows(Run(INITIAL, actions).db, p);
    assert SerialRows(rows);
    var next := NextDeliverable(Run(INITIAL, actions).db, p);
    if next.Some? {
      assert 0 <= next.value < |rows| && Runnable(rows, next.value);
    }
  }

  // ----- where the rows come from -----

  lemma {:induction false} RowsStayFor(s: Sys, actions: seq<Action>, p: PlanId, urls: seq<string>)
    requires Inv(s) && Rows(s.db, p) != [] && RowsFor(Rows(s.db, p), urls)
    ensures RowsFor(Rows(Run(s, actions).db, p), urls)
    decreases |actions|
  {
    if actions != [] {
      StepKeepsInv(s, actions[0]);
      StepFollowsLifecycle(s, actions[0], p);
      RowsStayFor(Step(s, actions[0]), actions[1..], p, urls);
    }
  }

  /** No issue has two rows. */
  predicate OneRowEach(rows: seq<Deliverable>) {
    forall i, j | 0 <= i < j < |rows| :: rows[i].issueUrl != rows[j].issueUrl
  }

  lemma NoFirstRows(s: Sys, a: Action, p: PlanId)
    requires Inv(s) && Rows(s.db, p) == [] && !(a.Register? && a.plan == p && a.urls != [])
    ensures Rows(Step(s, a).db, p) == []
  {
    if OfReconciler(a) {
      ReconcilerFollows(s, a);
      if Step(s, a).db != s.db {
        var slot :| OneFollows(s.db, Step(s, a).db, slot);
        var d :| Moved(s.db, Step(s, a).db, slot, d) && Lifecycle(Rows(s.db, slot.plan)[slot.index], d);
        MoveFollows(s.db, Step(s, a).db, slot, d, p);
      }
    } else if a.Register? {
      RegisterOpensFresh(s.db, a.plan, a.urls, p);
    } else {
      OtherLeavesQueue(s.db, a);
    }
  }

  /** Only registering a checklist gives a plan its first rows. */
  lemma FirstRowsAreRegistered(s: Sys, a: Action, p: PlanId)
    requires Inv(s) && Rows(s.db, p) == [] && Rows(Step(s, a).db, p) != []
    ensures a.Register? && a.plan == p && Opened(Rows(Step(s, a).db, p), a.urls)
    ensures OneRowEach(Rows(Step(s, a).db, p))
  {
    if !(a.Register? && a.plan == p && a.urls != []) { NoFirstRows(s, a, p); }
    RegisterOpens(s.db, p, a.urls);
  }

  /** In every reachable state the rows of a plan are, in order, the issues of one checklist registered for it. */
  lemma {:induction false} RowsAreRegistered(s: Sys, actions: seq<Action>, p: PlanId) returns (urls: seq<string>)
    requires Inv(s) && Rows(s.db, p) == [] && Rows(Run(s, actions).db, p) != []
    ensures Register(p, urls) in actions && RowsFor(Rows(Run(s, actions).db, p), urls)
    decreases |actions|
  {
    hide Step, Inv;
    var s1 := Step(s, actions[0]);
    StepKeepsInv(s, actions[0]);
    if Rows(s1.db, p) == [] {
      urls := RowsAreRegistered(s1, actions[1..], p);
      assert Register(p, urls) in actions[1..];
    } else {
      FirstRowsAreRegistered(s, actions[0], p);
      urls := actions[0].urls;
      RowsStayFor(s1, actions[1..], p, urls);
    }
  }

  /** In every reachable state the rows of a plan are for different issues. */
  lemma {:induction false} IssuesDiffer(s: Sys, actions: seq<Action>, p: PlanId)
    requires Inv(s) && OneRowEach(Rows(s.db, p))
    ensures OneRowEach(Rows(Run(s, actions).db, p))
    decreases |actions|
  {
    hide Step, Inv;
    if actions != [] {
      var s1 := Step(s, actions[0]);
      StepKeepsInv(s, actions[0]);
      if Rows(s.db, p) != [] {
        StepFollowsLifecycle(s, actions[0], p);
      } else if Rows(s1.db, p) != [] {
        FirstRowsAreRegistered(s, actions[0], p);
      }
      IssuesDiffer(s1, actions[1..], p);
    }
  }
}
