/** What the transactions of Tables do, row by row and plan by plan. */
module Effects {
  import opened Basics
  import opened Tables

  /** The rows a checklist with these issues starts with: in its order, waiting, tried for the first time. */
  predicate Opened(rows: seq<Deliverable>, urls: seq<string>) {
    && |rows| == |urls|
    && forall k | 0 <= k < |rows| ::
         rows[k].issueUrl == urls[k] && rows[k].state == Pending && rows[k].workload == None && rows[k].pull == None
         && rows[k].attempt == 1
  }

  /** These rows are for these issues, position by position. */
  predicate RowsFor(rows: seq<Deliverable>, urls: seq<string>) {
    |rows| == |urls| && forall k | 0 <= k < |rows| :: rows[k].issueUrl == urls[k]
  }

  /** Registering a checklist of a plan without rows stores it in order, if the plan is known and no issue is listed twice or
      by another plan; otherwise it is refused. */
  lemma RegisterOpens(db: Db, p: PlanId, urls: seq<string>)
    requires Rows(db, p) == [] && urls != []
    ensures RegisterDeliverables(db, p, urls).Ok? <==>
              && p in db.plans
              && (forall i, j | 0 <= i < j < |urls| :: urls[i] != urls[j])
              && (forall q, k: nat, i | HasRow(db, q, k) && 0 <= i < |urls| :: Rows(db, q)[k].issueUrl != urls[i])
    ensures RegisterDeliverables(db, p, urls).Ok? ==>
              var db' := RegisterDeliverables(db, p, urls).value;
              && Opened(Rows(db', p), urls) && db' == db.(items := db'.items)
              && forall q | q != p :: Rows(db', q) == Rows(db, q)
  {
    forall url ensures UrlTaken(db, url) <==> exists q, k: nat :: HasRow(db, q, k) && Rows(db, q)[k].issueUrl == url {
      UrlTakenMeans(db, url);
    }
    hide UrlTaken;
  }

  lemma UrlTakenMeans(db: Db, url: string)
    ensures UrlTaken(db, url) <==> exists q, k: nat :: HasRow(db, q, k) && Rows(db, q)[k].issueUrl == url
  {
    if UrlTaken(db, url) {
      var q :| q in db.items && url in Urls(db.items[q]);
      var k :| 0 <= k < |db.items[q]| && Urls(db.items[q])[k] == url;
      assert HasRow(db, q, k) && Rows(db, q)[k].issueUrl == url;
    }
    if q, k: nat :| HasRow(db, q, k) && Rows(db, q)[k].issueUrl == url {
      assert Urls(db.items[q])[k] == url;
    }
  }

  /** A plan that has rows accepts its own list, which changes nothing, and no other. */
  lemma RegisterAgain(db: Db, p: PlanId, urls: seq<string>)
    requires Rows(db, p) != []
    ensures RegisterDeliverables(db, p, urls) == if RowsFor(Rows(db, p), urls) then Ok(db) else Err(DeliverablesChanged)
  {
  }

  /** One row became d; no other row of any plan changed. */
  ghost predicate OnlyRow(db: Db, db': Db, p: PlanId, k: nat, d: Deliverable) {
    && HasRow(db', p, k) && Rows(db', p)[k] == d
    && (forall q :: |Rows(db', q)| == |Rows(db, q)|)
    && (forall q, j: nat | HasRow(db, q, j) && (q, j) != (p, k) :: Rows(db', q)[j] == Rows(db, q)[j])
  }

  /** p is in this state and is otherwise the plan it was, and so is every other plan. */
  ghost predicate OnlyState(db: Db, db': Db, p: PlanId, state: PlanState) {
    && db'.plans.Keys == db.plans.Keys
    && (forall q | q in db.plans && q != p :: db'.plans[q] == db.plans[q])
    && (p in db.plans ==> db'.plans[p].state == state && db'.plans[p].version == db.plans[p].version
                          && db'.plans[p].issueUrl == db.plans[p].issueUrl)
  }

  predicate OthersMerged(rows: seq<Deliverable>, k: nat) {
    forall i | 0 <= i < |rows| && i != k :: rows[i].state == Merged
  }

  /** A merge that is reported done is recorded; it completes the plan exactly when every other row was merged. */
  lemma MergedEffect(db: Db, p: PlanId, k: nat)
    requires HasRow(db, p, k)
    ensures var db' := FinishMerge(db, p, k, true);
            && OnlyRow(db, db', p, k, Rows(db, p)[k].(state := Merged))
            && (p in db.plans ==> OnlyState(db, db', p, if OthersMerged(Rows(db, p), k) then Completed else db.plans[p].state))
            && db' == db.(items := db'.items, plans := db'.plans)
  {
    var rows := Rows(db, p)[k := Rows(db, p)[k].(state := Merged)];
    assert rows[k].state == Merged && forall i | 0 <= i < |rows| && i != k :: rows[i] == Rows(db, p)[i];
    assert AllMerged(rows) <==> OthersMerged(Rows(db, p), k);
    assert FinishMerge(db, p, k, true).items == db.items[p := rows];
    assert FinishMerge(db, p, k, true).plans
        == if AllMerged(rows) && p in db.plans then db.plans[p := db.plans[p].(state := Completed)] else db.plans;
  }

  /** A failure, of the work or of the merge, stops the row and its plan. */
  lemma FailedEffect(db: Db, p: PlanId, k: nat)
    requires HasRow(db, p, k)
    ensures FinishMerge(db, p, k, false) == FailDeliverable(db, p, k)
    ensures var db' := FailDeliverable(db, p, k);
            && OnlyRow(db, db', p, k, Rows(db, p)[k].(state := Broken))
            && OnlyState(db, db', p, Failed)
            && db' == db.(items := db'.items, plans := db'.plans)
  {
  }

  lemma BegunEffect(db: Db, p: PlanId, k: nat, pull: PullRequest)
    requires HasRow(db, p, k)
    ensures var db' := BeginMerge(db, p, k, pull);
            && OnlyRow(db, db', p, k, Rows(db, p)[k].(state := MergePending, pull := Some(pull)))
            && db' == db.(items := db'.items)
  {
  }

  /** The row a retry is for. */
  predicate FirstFor(rows: seq<Deliverable>, url: string, k: nat) {
    k < |rows| && rows[k].issueUrl == url && forall j | 0 <= j < k :: rows[j].issueUrl != url
  }

  /** A retry is granted exactly to a failed row whose workload no other row names. */
  lemma RetryGranted(db: Db, p: PlanId, url: string, k: nat)
    requires FirstFor(Rows(db, p), url, k)
    ensures PrepareRetry(db, p, url).Ok? <==>
              && Rows(db, p)[k].state == Broken
              && (Rows(db, p)[k].workload.Some? ==>
                    forall q, j: nat | HasRow(db, q, j) && (q, j) != (p, k) :: Rows(db, q)[j].workload != Rows(db, p)[k].workload)
  {
    FirstIsFound(Rows(db, p), url, 0, k);
    if Rows(db, p)[k].workload.Some? { ReferencedMeans(db, p, k, Rows(db, p)[k].workload.value); }
    hide ReferencedElsewhere;
  }

  /** The row waits again, unbound, one attempt on, with its plan decomposed and its workload forgotten. */
  lemma RetryEffect(db: Db, p: PlanId, url: string, k: nat)
    requires FirstFor(Rows(db, p), url, k) && PrepareRetry(db, p, url).Ok?
    ensures var db' := PrepareRetry(db, p, url).value;
            var was := Rows(db, p)[k];
            && OnlyRow(db, db', p, k, Deliverable(url, Pending, None, None, was.attempt + 1))
            && OnlyState(db, db', p, Decomposed)
            && (forall n :: n in db'.workloads <==> n in db.workloads && was.workload != Some(n))
            && (forall n | n in db'.workloads :: db'.workloads[n] == db.workloads[n])
  {
    FirstIsFound(Rows(db, p), url, 0, k);
    RetryEquations(db, p, url, k);
    hide PrepareRetry, FindUrl, FirstFor, RetryRow;
    var db' := PrepareRetry(db, p, url).value;
    OneRow(db, db', p, k, Deliverable(url, Pending, None, None, Rows(db, p)[k].attempt + 1));
    OneState(db, db', p, Decomposed);
  }

  lemma RetryEquations(db: Db, p: PlanId, url: string, k: nat)
    requires FindUrl(Rows(db, p), url, 0) == Some(k) && PrepareRetry(db, p, url).Ok?
    ensures var db', was := PrepareRetry(db, p, url).value, Rows(db, p)[k];
            && db'.items == db.items[p := Rows(db, p)[k := Deliverable(url, Pending, None, None, was.attempt + 1)]]
            && db'.plans == SetState(db, p, Decomposed).plans
            && db'.workloads == (if was.workload.Some? then db.workloads - {was.workload.value} else db.workloads)
  {
    hide ReferencedElsewhere, FindUrl;
  }

  lemma OneRow(db: Db, db': Db, p: PlanId, k: nat, d: Deliverable)
    requires HasRow(db, p, k) && db'.items == db.items[p := Rows(db, p)[k := d]]
    ensures OnlyRow(db, db', p, k, d)
  {
  }

  lemma OneState(db: Db, db': Db, p: PlanId, state: PlanState)
    requires db'.plans == SetState(db, p, state).plans
    ensures OnlyState(db, db', p, state)
  {
  }

  lemma {:induction false} FirstIsFound(rows: seq<Deliverable>, url: string, i: nat, k: nat)
    requires i <= k < |rows| && rows[k].issueUrl == url && forall j | i <= j < k :: rows[j].issueUrl != url
    ensures FindUrl(rows, url, i) == Some(k)
    decreases k - i
  {
    if i < k { FirstIsFound(rows, url, i + 1, k); }
  }

  lemma ReferencedMeans(db: Db, p: PlanId, k: nat, name: string)
    ensures ReferencedElsewhere(db, p, k, name) <==>
              exists q, j: nat :: HasRow(db, q, j) && (q, j) != (p, k) && Rows(db, q)[j].workload == Some(name)
  {
    if q, j: nat :| HasRow(db, q, j) && (q, j) != (p, k) && Rows(db, q)[j].workload == Some(name) {
      assert q in db.items && db.items[q][j].workload == Some(name);
    }
    if ReferencedElsewhere(db, p, k, name) {
      var q :| q in db.items && exists j | 0 <= j < |db.items[q]| :: (q, j) != (p, k) && db.items[q][j].workload == Some(name);
      var j :| 0 <= j < |db.items[q]| && (q, j) != (p, k) && db.items[q][j].workload == Some(name);
      assert HasRow(db, q, j) && Rows(db, q)[j].workload == Some(name);
    }
  }

  /** Pausing and resuming a plan gives it back as it was, with nothing saved; pausing it twice is pausing it once. */
  lemma ResumeUndoesPause(db: Db, p: PlanId)
    requires p in db.plans && db.plans[p].state != Paused
    ensures PausePlan(db, p).Ok? && PausePlan(db, p).value.plans[p].state == Paused
    ensures PausePlan(PausePlan(db, p).value, p) == PausePlan(db, p)
    ensures ResumePlan(PausePlan(db, p).value, p) == db.(controls := db.controls - {p})
  {
    var paused := PausePlan(db, p).value;
    assert ResumePlan(paused, p).plans == db.plans;
    assert db.controls[p := db.plans[p].state] - {p} == db.controls - {p};
  }

  /** A plan is resumed into the state that was saved, or into review, and the saved state is forgotten. */
  lemma ResumeEffect(db: Db, p: PlanId)
    ensures var db' := ResumePlan(db, p);
            && OnlyState(db, db', p, if p in db.controls then db.controls[p] else Review)
            && db'.controls == db.controls - {p} && db' == db.(plans := db'.plans, controls := db'.controls)
  {
  }

  /** A turn out of attempts leaves its plan to the owner, unless the plan is over. */
  lemma ExhaustEffect(db: Db, p: PlanId)
    requires p in db.plans
    ensures var db' := ExhaustTurn(db, p);
            && OnlyState(db, db', p, if db.plans[p].state in {Completed, Cancelled, Failed} then db.plans[p].state else NeedsInput)
            && db' == db.(plans := db'.plans)
  {
  }

  /** A registered workload is the one of its row, and its plan runs. */
  lemma StartEffect(db: Db, name: string, p: PlanId, k: nat, phase: string)
    requires HasRow(db, p, k) && name !in db.workloads && RegisterWorkload(db, name, p, k, phase).Ok?
    ensures var db' := RegisterWorkload(db, name, p, k, phase).value;
            && OnlyRow(db, db', p, k, Rows(db, p)[k].(state := Active, workload := Some(name)))
            && OnlyState(db, db', p, PlanState.Running)
            && db'.workloads == db.workloads[name := Workload(p, k, phase)]
  {
    var db' := RegisterWorkload(db, name, p, k, phase).value;
    StartEquations(db, name, p, k, phase);
    hide RegisterWorkload;
    OneRow(db, db', p, k, Rows(db, p)[k].(state := Active, workload := Some(name)));
    OneState(db, db', p, PlanState.Running);
  }

  lemma StartEquations(db: Db, name: string, p: PlanId, k: nat, phase: string)
    requires HasRow(db, p, k) && name !in db.workloads && RegisterWorkload(db, name, p, k, phase).Ok?
    ensures var db' := RegisterWorkload(db, name, p, k, phase).value;
            && db'.items == db.items[p := Rows(db, p)[k := Rows(db, p)[k].(state := Active, workload := Some(name))]]
            && db'.plans == SetState(db, p, PlanState.Running).plans
            && db'.workloads == db.workloads[name := Workload(p, k, phase)]
  {
    hide SlotTaken;
  }

  /** v is the current version of p, with this row, under this issue, and the plan is in review. */
  predicate UnderReview(db: Db, p: PlanId, v: nat, row: Version, url: string) {
    && p in db.plans && db.plans[p] == Plan(Review, v, Some(url))
    && VersionId(p, v) in db.versions && db.versions[VersionId(p, v)] == row
  }

  /** Nothing but p's plan row changed, and nothing is lost of the versions. */
  ghost predicate OnlyVersion(db: Db, db': Db, p: PlanId, v: nat) {
    && db' == db.(plans := db'.plans, versions := db'.versions)
    && (forall q | q != p :: (q in db'.plans <==> q in db.plans) && (q in db.plans ==> db'.plans[q] == db.plans[q]))
    && (forall id | id != VersionId(p, v) ::
          (id in db'.versions <==> id in db.versions) && (id in db.versions ==> db'.versions[id] == db.versions[id]))
  }

  /** A version is stored once, as the current one and in review, unless its number, text or event is known already. */
  lemma VersionStored(db: Db, p: PlanId, v: nat, row: Version, url: string)
    ensures CommitPlan(db, p, v, row, url).Ok? <==>
              && VersionId(p, v) !in db.versions
              && forall id | id in db.versions :: db.versions[id].hash != row.hash && db.versions[id].eventId != row.eventId
    ensures CommitPlan(db, p, v, row, url).Ok? ==>
              var db' := CommitPlan(db, p, v, row, url).value;
              UnderReview(db', p, v, row, url) && OnlyVersion(db, db', p, v)
    ensures p in db.plans && db.plans[p].issueUrl == Some(url) ==> CommitEdit(db, p, v, row) == CommitPlan(db, p, v, row, url)
  {
  }

  /** An edit is let in exactly for the plan's own issue, with a text that is not the current one, while the plan has no
      approval; it gets the next number. */
  lemma EditAdmitted(db: Db, p: PlanId, url: string, hash: string, v: nat)
    ensures EditGuards(db, p, url, hash) == Ok(Some(v)) <==>
              && p in db.plans && db.plans[p].issueUrl == Some(url) && VersionId(p, db.plans[p].version) in db.versions
              && db.versions[VersionId(p, db.plans[p].version)].hash != hash && p !in db.approvals
              && v == db.plans[p].version + 1
    ensures EditGuards(db, p, url, hash) == Ok(None) <==>
              && p in db.plans && db.plans[p].issueUrl == Some(url) && VersionId(p, db.plans[p].version) in db.versions
              && db.versions[VersionId(p, db.plans[p].version)].hash == hash
  {
  }

  /** An approval is stored for the current text of a plan that has none, under an event that approved nothing yet; the same
      text again is accepted, and changes the plan only while it has not moved on. */
  lemma ApprovalEffect(db: Db, p: PlanId, a: Approval)
    ensures Approve(db, p, a).Ok? <==>
              && p in db.plans && VersionId(p, db.plans[p].version) in db.versions
              && db.versions[VersionId(p, db.plans[p].version)].hash == a.hash
              && (if p in db.approvals then db.approvals[p].hash == a.hash
                  else forall q | q in db.approvals :: db.approvals[q].eventId != a.eventId)
    ensures Approve(db, p, a).Ok? ==>
              var db' := Approve(db, p, a).value;
              && db' == db.(plans := db'.plans, approvals := db'.approvals)
              && (forall q | q in db.approvals :: q in db'.approvals && db'.approvals[q] == db.approvals[q])
              && (forall q | q in db'.approvals && q !in db.approvals :: q == p && db'.approvals[q] == a)
              && p in db'.approvals && db'.approvals[p].hash == a.hash
              && OnlyState(db, db', p, if p in db.approvals && Advanced(db.plans[p].state) then db.plans[p].state else Accepted)
  {
  }

  /** Opening the review again removes the approval, and that alone. */
  lemma ReopenEffect(db: Db, p: PlanId)
    ensures var db' := ReopenReview(db, p);
            && OnlyState(db, db', p, Review)
            && (forall q :: q in db'.approvals <==> q in db.approvals && q != p)
            && (forall q | q in db'.approvals :: db'.approvals[q] == db.approvals[q])
            && db' == db.(plans := db'.plans, approvals := db'.approvals)
  {
  }
}
