/** The store as the object the gateway updates in place, one method per transaction of state.py,
    each proved to make exactly the change its specification in Tables names. */
module StateStoreModel {
  import opened Basics
  import opened Tables
  import opened Execution
  import opened Effects

  class StateStore {
    var plans: map<PlanId, Plan>
    var versions: map<VersionId, Version>
    var approvals: map<PlanId, Approval>
    var controls: map<PlanId, PlanState>
    var items: map<PlanId, seq<Deliverable>>
    var workloads: map<string, Workload>

    function Contents(): Db
      reads this
    {
      Db(plans, versions, approvals, controls, items, workloads)
    }

    constructor ()
      ensures Contents() == EMPTY
    {
      plans, versions, approvals, controls, items, workloads := map[], map[], map[], map[], map[], map[];
    }

    /** The state is now what the transaction promised, or what it was if the transaction rolled back. */
    twostate predicate Committed(promised: Result<Db, Refusal>, new r: Result<(), Refusal>)
      reads this
    {
      match promised
      case Ok(db) => r.Ok? && Contents() == db
      case Err(e) => r == Err(e) && Contents() == old(Contents())
    }

    method SetPlanState(p: PlanId, s: PlanState)
      modifies this`plans
      ensures Contents() == SetState(old(Contents()), p, s)
    {
      if p in plans {
        plans := plans[p := plans[p].(state := s)];
      }
    }

    method PausePlan(p: PlanId) returns (r: Result<(), Refusal>)
      modifies this
      ensures Committed(Tables.PausePlan(old(Contents()), p), r)
    {
      if p !in plans {
        return Err(UnknownPlan);
      }
      if plans[p].state != Paused {
        controls := controls[p := plans[p].state];
        SetPlanState(p, Paused);
      }
      r := Ok(());
    }

    method ResumePlan(p: PlanId) returns (state: PlanState)
      modifies this
      ensures Contents() == Tables.ResumePlan(old(Contents()), p)
      ensures state == ResumedState(old(Contents()), p)
    {
      state := if p in controls then controls[p] else Review;
      SetPlanState(p, state);
      controls := controls - {p};
    }

    /** The plan half of fail_luna_turn. */
    method ExhaustTurn(p: PlanId)
      modifies this
      ensures Contents() == Tables.ExhaustTurn(old(Contents()), p)
    {
      if p in plans && !Terminal(plans[p].state) {
        SetPlanState(p, NeedsInput);
      }
    }

    method RegisterDeliverables(p: PlanId, urls: seq<string>) returns (r: Result<(), Refusal>)
      modifies this
      ensures Committed(Tables.RegisterDeliverables(old(Contents()), p, urls), r)
      ensures r.Ok? && Rows(old(Contents()), p) == [] ==> Opened(Rows(Contents(), p), urls)
      ensures Rows(old(Contents()), p) != [] ==> (r.Ok? <==> RowsFor(Rows(Contents(), p), urls)) && Contents() == old(Contents())
    {
      if Rows(Contents(), p) != [] {
        RegisterAgain(Contents(), p, urls);
      } else if urls != [] {
        RegisterOpens(Contents(), p, urls);
      }
      var existing := Rows(Contents(), p);
      if existing != [] {
        return if Urls(existing) == urls then Ok(()) else Err(DeliverablesChanged);
      }
      if urls == [] {
        return Ok(());
      }
      if p !in plans {
        return Err(ForeignKeyViolation);
      }
      var rows: seq<Deliverable> := [];
      for i := 0 to |urls|
        invariant Contents() == old(Contents())
        invariant rows == NewRows(urls[..i])
        invariant Distinct(urls[..i]) && forall j | 0 <= j < i :: !UrlTaken(Contents(), urls[j])
      {
        assert forall j | 0 <= j < i :: rows[j].issueUrl == urls[j];
        if UrlTaken(Contents(), urls[i]) || exists j | 0 <= j < i :: rows[j].issueUrl == urls[i] {
          return Err(UniqueViolation);
        }
        rows := rows + [Deliverable(urls[i], Pending, None, None, 1)];
      }
      assert urls[..|urls|] == urls;
      items := items[p := rows];
      r := Ok(());
    }

    method NextDeliverable(p: PlanId) returns (next: Option<nat>)
      ensures next == Tables.NextDeliverable(Contents(), p)
    {
      var rows := Rows(Contents(), p);
      var k := 0;
      while k < |rows| && rows[k].state == Merged
        invariant k <= |rows| && forall i | 0 <= i < k :: rows[i].state == Merged
        invariant FirstRunnable(rows, k) == Tables.NextDeliverable(Contents(), p)
      {
        k := k + 1;
      }
      next := if k < |rows| && rows[k].state == Pending then Some(k) else None;
    }

    method PrepareDeliverableRetry(p: PlanId, url: string) returns (r: Result<(), Refusal>)
      modifies this
      ensures Committed(PrepareRetry(old(Contents()), p, url), r)
    {
      var rows := Rows(Contents(), p);
      var k := 0;
      while k < |rows| && rows[k].issueUrl != url
        invariant k <= |rows| && FindUrl(rows, url, 0) == FindUrl(rows, url, k)
      {
        k := k + 1;
      }
      if k == |rows| || rows[k].state != Broken {
        return Err(NotRetryable);
      }
      var name := rows[k].workload;
      if name.Some? && ReferencedElsewhere(Contents(), p, k, name.value) {
        return Err(ForeignKeyViolation);
      }
      items := items[p := items[p][k := RetryRow(rows[k])]];
      SetPlanState(p, Decomposed);
      if name.Some? {
        workloads := workloads - {name.value};
      }
      r := Ok(());
    }

    method RegisterWorkload(name: string, p: PlanId, k: nat, phase: string) returns (r: Result<(), Refusal>)
      modifies this
      ensures Committed(Tables.RegisterWorkload(old(Contents()), name, p, k, phase), r)
    {
      if name in workloads {
        workloads := workloads[name := workloads[name].(phase := phase)];
      } else {
        if p !in plans {
          return Err(ForeignKeyViolation);
        }
        if SlotTaken(Contents(), p, k) {
          return Err(UniqueViolation);
        }
        workloads := workloads[name := Workload(p, k, phase)];
      }
      if HasRow(Contents(), p, k) {
        items := items[p := items[p][k := items[p][k].(state := Active, workload := Some(name))]];
      }
      SetPlanState(p, PlanState.Running);
      r := Ok(());
    }

    method UpdateWorkload(name: string, phase: string)
      modifies this`workloads
      ensures Contents() == Tables.UpdateWorkload(old(Contents()), name, phase)
    {
      if name in workloads {
        workloads := workloads[name := workloads[name].(phase := phase)];
      }
    }

    /** active_workloads; the order is that of the names and no property depends on it. */
    method ActiveWorkloads() returns (names: seq<string>)
      ensures ListsActive(Contents(), names)
      ensures forall n :: n in names <==>
                n in workloads && var w := workloads[n];
                && w.plan in plans && plans[w.plan].state in {PlanState.Running, NeedsInput}
                && HasRow(Contents(), w.plan, w.index) && Rows(Contents(), w.plan)[w.index].state == Active
    {
      names := [];
      var left := workloads.Keys;
      while left != {}
        invariant left <= workloads.Keys && Distinct(names)
        invariant forall n :: n in names <==> ActiveWorkload(Contents(), n) && n !in left
        decreases |left|
      {
        var n :| n in left;
        left := left - {n};
        if ActiveWorkload(Contents(), n) {
          names := names + [n];
        }
      }
    }

    method BeginMerge(p: PlanId, k: nat, pull: PullRequest)
      modifies this`items
      ensures Contents() == Tables.BeginMerge(old(Contents()), p, k, pull)
      ensures HasRow(old(Contents()), p, k) ==>
                OnlyRow(old(Contents()), Contents(), p, k,
                        Rows(old(Contents()), p)[k].(state := MergePending, pull := Some(pull)))
    {
      if HasRow(Contents(), p, k) { BegunEffect(Contents(), p, k, pull); }
      if HasRow(Contents(), p, k) {
        items := items[p := items[p][k := items[p][k].(state := MergePending, pull := Some(pull))]];
      }
    }

    /** pending_merges, plan by plan. */
    method PendingMerges() returns (slots: seq<Slot>)
      ensures ListsPendingMerges(Contents(), slots)
      ensures forall s: Slot :: s in slots <==>
                HasRow(Contents(), s.plan, s.index) && Rows(Contents(), s.plan)[s.index].state == MergePending
    {
      slots := [];
      var left := items.Keys;
      while left != {}
        invariant left <= items.Keys && DistinctSlots(slots)
        invariant forall s :: s in slots <==> At(Contents(), s, MergePending) && s.plan !in left
        decreases |left|
      {
        var p :| p in left;
        left := left - {p};
        ghost var before := slots;
        for k := 0 to |items[p]|
          invariant DistinctSlots(slots) && p !in left
          invariant forall s :: s in slots <==> s in before || (s.plan == p && s.index < k && At(Contents(), s, MergePending))
        {
          if items[p][k].state == MergePending {
            slots := slots + [Slot(p, k)];
          }
        }
      }
    }

    method FailDeliverable(p: PlanId, k: nat)
      modifies this`plans, this`items
      ensures Contents() == Tables.FailDeliverable(old(Contents()), p, k)
      ensures HasRow(old(Contents()), p, k) ==>
                OnlyRow(old(Contents()), Contents(), p, k, Rows(old(Contents()), p)[k].(state := Broken))
                && OnlyState(old(Contents()), Contents(), p, Failed)
    {
      if HasRow(Contents(), p, k) { FailedEffect(Contents(), p, k); }
      if HasRow(Contents(), p, k) {
        items := items[p := items[p][k := items[p][k].(state := Broken)]];
      }
      SetPlanState(p, Failed);
    }

    /** Returns whether this merge completed the plan. */
    method FinishMerge(p: PlanId, k: nat, merged: bool) returns (completed: bool)
      modifies this`plans, this`items
      ensures Contents() == Tables.FinishMerge(old(Contents()), p, k, merged)
      ensures completed <==> merged && AllMerged(Rows(Contents(), p))
      ensures HasRow(old(Contents()), p, k) ==>
                var rows := Rows(old(Contents()), p);
                && completed == (merged && OthersMerged(rows, k))
                && OnlyRow(old(Contents()), Contents(), p, k, rows[k].(state := if merged then Merged else Broken))
                && (p in old(plans) ==>
                      OnlyState(old(Contents()), Contents(), p,
                                if completed then Completed else if merged then old(plans)[p].state else Failed))
    {
      ghost var before := Contents();
      if HasRow(before, p, k) {
        MergedEffect(before, p, k);
        FailedEffect(before, p, k);
      }
      if !merged {
        FailDeliverable(p, k);
        return false;
      }
      if HasRow(Contents(), p, k) {
        items := items[p := items[p][k := items[p][k].(state := Merged)]];
      }
      ghost var marked := Contents();
      var rows := Rows(Contents(), p);
      var j := 0;
      while j < |rows| && rows[j].state == Merged
        invariant j <= |rows| && forall i | 0 <= i < j :: rows[i].state == Merged
      {
        j := j + 1;
      }
      completed := j == |rows|;
      if completed {
        SetPlanState(p, Completed);
      }
    }

    /** Steps other threads take while this one is between two transactions. */
    method Others(actions: seq<Action>)
      requires forall a | a in actions :: !OfReconciler(a)
      modifies this
      ensures forall t :: Run(Sys(old(Contents()), t), actions) == Sys(Contents(), t)
    {
      for i := 0 to |actions|
        invariant forall t :: Run(Sys(old(Contents()), t), actions) == Run(Sys(Contents(), t), actions[i..])
      {
        assert actions[i..][1..] == actions[i + 1..];
        var db := OtherStep(Contents(), actions[i]);
        plans, versions, approvals, controls := db.plans, db.versions, db.approvals, db.controls;
        items, workloads := db.items, db.workloads;
        assert Contents() == db;
      }
      assert actions[|actions|..] == [];
    }
  }
}
