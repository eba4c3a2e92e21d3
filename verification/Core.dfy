/** core.py: the plan transitions, each checking what it read and then writing through the store. */
module Core {
  import opened Basics
  import opened Tables
  import opened Execution
  import opened StateStoreModel
  import opened Effects

  datatype Source = Matrix | Github

  /** Whatever the reconciler was doing, these steps led from the one set of tables to the other. */
  ghost predicate Traced(before: Db, trace: seq<Action>, now: Db) {
    forall t :: Run(Sys(before, t), trace) == Sys(now, t)
  }

  lemma TracedNothing(db: Db)
    ensures Traced(db, [], db)
  {
  }

  lemma TracedMore(before: Db, trace: seq<Action>, now: Db, more: seq<Action>, later: Db)
    requires Traced(before, trace, now) && Traced(now, more, later)
    ensures Traced(before, trace + more, later)
  {
    hide Run;
    forall t ensures Run(Sys(before, t), trace + more) == Sys(later, t) {
      RunAppend(Sys(before, t), trace, more);
    }
  }

  lemma TracedStep(before: Db, trace: seq<Action>, now: Db, a: Action, later: Db)
    requires Traced(before, trace, now) && !OfReconciler(a) && OtherStep(now, a) == later
    ensures Traced(before, trace + [a], later)
  {
    hide Run, OtherStep;
    forall t ensures Run(Sys(now, t), [a]) == Sys(later, t) {
      RunOne(Sys(now, t), a);
    }
    TracedMore(before, trace, now, [a], later);
  }

  /** All outcomes of approve for one who may: refused with the tables as they were, or without an issue; already moved on,
      with the issues of its rows; stopped by GitHub after the first transaction; or decomposed and its checklist registered,
      which fails only if the registration is refused. */
  ghost predicate ApproveOutcome(before: Db, p: PlanId, a: Approval, children: Result<seq<string>, Refusal>,
                                 first: seq<Action>, second: seq<Action>, r: Result<seq<string>, Refusal>, trace: seq<Action>) {
    match Tables.Approve(before, p, a)
    case Err(e) => r == Err(e) && trace == [Action.Approve(p, a)]
    case Ok(_) =>
      p in before.plans &&
      match before.plans[p].issueUrl
      case None => r == Err(NoReviewIssue) && trace == [Action.Approve(p, a)]
      case Some(url) =>
        if p in before.approvals && Advanced(before.plans[p].state)
        then r.Ok? && RowsFor(Rows(before, p), r.value) && trace == [Action.Approve(p, a)]
        else match children
             case Err(e) => r == Err(e) && trace == [Action.Approve(p, a)] + first
             case Ok(urls) =>
               var sofar := [Action.Approve(p, a)] + first + [Action.MarkDecomposed(p, url)] + second;
               trace == sofar + [Register(p, urls)]
               && r == match RegisterDeliverables(Run(Sys(before, Idle), sofar).db, p, urls) case Ok(_) => Ok(urls) case Err(e) => Err(e)
  }

  /** A first approval that nothing comes between: the plan is decomposed under its issue, the approval is there, and its rows
      are its sub-issues in order. */
  lemma ApprovedPlanIsOpened(before: Db, p: PlanId, a: Approval, urls: seq<string>, r: Result<seq<string>, Refusal>,
                             trace: seq<Action>, after: Db)
    requires ApproveOutcome(before, p, a, Ok(urls), [], [], r, trace) && Traced(before, trace, after) && r.Ok?
    requires p !in before.approvals && Rows(before, p) == []
    ensures r == Ok(urls) && p in before.plans && before.plans[p].issueUrl.Some?
    ensures p in after.plans && after.plans[p] == before.plans[p].(state := Decomposed)
    ensures p in after.approvals && after.approvals[p] == a && Opened(Rows(after, p), urls)
    ensures CurrentHash(after, p) == Some(a.hash)
  {
    hide *;
    var url := OpenedUrl(before, p, a, urls, r, trace);
    Decomposes(before, p, a, url);
    ThreeSteps(before, p, a, url, urls, trace, after);
    var db2 := Tables.MarkDecomposed(Tables.Approve(before, p, a).value, p, url);
    Opens(db2, p, urls);
    SameRest(db2, after, p);
  }

  lemma SameRest(db: Db, db': Db, p: PlanId)
    requires db' == db.(items := db'.items)
    ensures db'.plans == db.plans && db'.approvals == db.approvals && CurrentHash(db', p) == CurrentHash(db, p)
  {
  }

  lemma ThreeSteps(before: Db, p: PlanId, a: Approval, url: string, urls: seq<string>, trace: seq<Action>, after: Db)
    requires Tables.Approve(before, p, a).Ok? && Traced(before, trace, after)
    requires trace == [Action.Approve(p, a), Action.MarkDecomposed(p, url)] + [Register(p, urls)]
    requires RegisterDeliverables(Run(Sys(before, Idle), [Action.Approve(p, a), Action.MarkDecomposed(p, url)]).db, p, urls).Ok?
    ensures var db2 := Tables.MarkDecomposed(Tables.Approve(before, p, a).value, p, url);
            RegisterDeliverables(db2, p, urls) == Ok(after)
  {
    TracedIs(before, trace, after);
    hide Traced, Run, RegisterDeliverables, Tables.Approve, Tables.MarkDecomposed;
    TwoSteps(before, p, a, url);
    RunAppend(Sys(before, Idle), [Action.Approve(p, a), Action.MarkDecomposed(p, url)], [Register(p, urls)]);
    RunOne(Sys(Tables.MarkDecomposed(Tables.Approve(before, p, a).value, p, url), Idle), Register(p, urls));
  }

  lemma Decomposes(before: Db, p: PlanId, a: Approval, url: string)
    requires Tables.Approve(before, p, a).Ok? && p in before.plans && before.plans[p].issueUrl == Some(url) && p !in before.approvals
    ensures var db := Tables.MarkDecomposed(Tables.Approve(before, p, a).value, p, url);
            && p in db.plans && db.plans[p] == before.plans[p].(state := Decomposed)
            && p in db.approvals && db.approvals[p] == a && CurrentHash(db, p) == Some(a.hash) && Rows(db, p) == Rows(before, p)
  {
    ApprovalEffect(before, p, a);
    hide Tables.Approve;
  }

  lemma OpenedUrl(before: Db, p: PlanId, a: Approval, urls: seq<string>, r: Result<seq<string>, Refusal>, trace: seq<Action>)
    returns (url: string)
    requires ApproveOutcome(before, p, a, Ok(urls), [], [], r, trace) && r.Ok? && p !in before.approvals
    ensures Tables.Approve(before, p, a).Ok? && p in before.plans && before.plans[p].issueUrl == Some(url) && r == Ok(urls)
    ensures trace == [Action.Approve(p, a), Action.MarkDecomposed(p, url)] + [Register(p, urls)]
    ensures RegisterDeliverables(Run(Sys(before, Idle), [Action.Approve(p, a), Action.MarkDecomposed(p, url)]).db, p, urls).Ok?
  {
    hide Run, Tables.Approve, RegisterDeliverables;
    url := before.plans[p].issueUrl.value;
    assert [Action.Approve(p, a)] + [] + [Action.MarkDecomposed(p, url)] + [] == [Action.Approve(p, a), Action.MarkDecomposed(p, url)];
  }

  lemma TwoSteps(before: Db, p: PlanId, a: Approval, url: string)
    requires Tables.Approve(before, p, a).Ok?
    ensures Run(Sys(before, Idle), [Action.Approve(p, a), Action.MarkDecomposed(p, url)])
         == Sys(Tables.MarkDecomposed(Tables.Approve(before, p, a).value, p, url), Idle)
  {
    hide Run, Tables.Approve, Tables.MarkDecomposed;
    RunAppend(Sys(before, Idle), [Action.Approve(p, a)], [Action.MarkDecomposed(p, url)]);
    RunOne(Sys(before, Idle), Action.Approve(p, a));
    RunOne(Sys(Tables.Approve(before, p, a).value, Idle), Action.MarkDecomposed(p, url));
    assert [Action.Approve(p, a)] + [Action.MarkDecomposed(p, url)] == [Action.Approve(p, a), Action.MarkDecomposed(p, url)];
  }

  lemma Opens(db: Db, p: PlanId, urls: seq<string>)
    requires Rows(db, p) == [] && RegisterDeliverables(db, p, urls).Ok?
    ensures var db' := RegisterDeliverables(db, p, urls).value; Opened(Rows(db', p), urls) && db' == db.(items := db'.items)
  {
    if urls != [] { RegisterOpens(db, p, urls); }
  }

  lemma TracedIs(before: Db, trace: seq<Action>, now: Db)
    requires Traced(before, trace, now)
    ensures Run(Sys(before, Idle), trace) == Sys(now, Idle)
  {
  }

  lemma OutcomeRefused(before: Db, p: PlanId, a: Approval, children: Result<seq<string>, Refusal>, first: seq<Action>,
                       second: seq<Action>)
    ensures Tables.Approve(before, p, a).Err? ==>
              ApproveOutcome(before, p, a, children, first, second, Err(Tables.Approve(before, p, a).error), [Action.Approve(p, a)])
  {
  }

  /** The outcomes that leave the first transaction alone. */
  lemma OutcomeAdmitted(before: Db, p: PlanId, a: Approval, children: Result<seq<string>, Refusal>, first: seq<Action>,
                        second: seq<Action>)
    requires Tables.Approve(before, p, a).Ok?
    ensures p in before.plans
    ensures before.plans[p].issueUrl.None? ==>
              ApproveOutcome(before, p, a, children, first, second, Err(NoReviewIssue), [Action.Approve(p, a)])
    ensures before.plans[p].issueUrl.Some? && p in before.approvals && Advanced(before.plans[p].state) ==>
              ApproveOutcome(before, p, a, children, first, second, Ok(Urls(Rows(Tables.Approve(before, p, a).value, p))),
                             [Action.Approve(p, a)])
    ensures before.plans[p].issueUrl.Some? && !(p in before.approvals && Advanced(before.plans[p].state)) && children.Err? ==>
              ApproveOutcome(before, p, a, children, first, second, Err(children.error), [Action.Approve(p, a)] + first)
  {
    hide Run;
    ApprovalEffect(before, p, a);
    hide Tables.Approve;
  }

  lemma OutcomeDone(before: Db, p: PlanId, a: Approval, children: Result<seq<string>, Refusal>, first: seq<Action>,
                    second: seq<Action>, sofar: seq<Action>, now: Db, registered: Result<(), Refusal>)
    requires Tables.Approve(before, p, a).Ok? && p in before.plans && before.plans[p].issueUrl.Some? && children.Ok?
    requires !(p in before.approvals && Advanced(before.plans[p].state))
    requires sofar == [Action.Approve(p, a)] + first + [Action.MarkDecomposed(p, before.plans[p].issueUrl.value)] + second
    requires Traced(before, sofar, now)
    requires match RegisterDeliverables(now, p, children.value) case Ok(_) => registered.Ok? case Err(e) => registered == Err(e)
    ensures ApproveOutcome(before, p, a, children, first, second,
                           if registered.Ok? then Ok(children.value) else Err(registered.error),
                           sofar + [Register(p, children.value)])
  {
    TracedIs(before, sofar, now);
    hide Run, Tables.Approve, RegisterDeliverables;
  }

  class Coordinator {
    const state: StateStore
    const approvers: set<string>
    const githubApprovers: set<string>

    constructor (state: StateStore, approvers: set<string>, githubApprovers: set<string>)
      ensures this.state == state && this.approvers == approvers && this.githubApprovers == githubApprovers
    {
      this.state, this.approvers, this.githubApprovers := state, approvers, githubApprovers;
    }

    /** The store now holds these tables. */
    ghost predicate Holds(db: Db)
      reads state
    {
      state.Contents() == db
    }

    /** record_plan: guards, then the issue is published (other threads may act), then the transaction.
        The result says whether a version was recorded. */
    method RecordPlan(p: PlanId, v: nat, row: Version, url: string, meanwhile: seq<Action>)
      returns (r: Result<bool, Refusal>)
      requires forall a | a in meanwhile :: !OfReconciler(a)
      modifies state
      ensures r == Ok(false) <==> p in old(state.plans) && v <= old(state.plans)[p].version
      ensures r == Ok(false) ==> Holds(old(state.Contents()))
      ensures r == Err(PlanImmutable) <==>
                p in old(state.plans) && v > old(state.plans)[p].version && !Reviewable(old(state.plans)[p].state)
      ensures r != Ok(false) && r != Err(PlanImmutable) ==>
                var mid := Run(Sys(old(state.Contents()), Idle), meanwhile).db;
                (r == Ok(true) <==> Tables.CommitPlan(mid, p, v, row, url).Ok?)
                && Holds(Commit(mid, Tables.CommitPlan(mid, p, v, row, url)))
      ensures meanwhile == [] ==> Holds(Commit(old(state.Contents()), Tables.RecordPlan(old(state.Contents()), p, v, row, url)))
    {
      if p in state.plans && v <= state.plans[p].version {
        return Ok(false);
      }
      if p in state.plans && !Reviewable(state.plans[p].state) {
        return Err(PlanImmutable);
      }
      state.Others(meanwhile);
      if VersionClash(state.Contents(), p, v, row.hash, row.eventId) {
        return Err(UniqueViolation);
      }
      state.plans := state.plans[p := Plan(Review, v, Some(url))];
      state.versions := state.versions[VersionId(p, v) := row];
      r := Ok(true);
    }

    /** record_github_edit, once the body has been parsed and hashed: guards, then the issue is published (other threads
        may act; it may fail, or come back as another issue), then the transaction. */
    method RecordGithubEdit(p: PlanId, url: string, row: Version, published: Option<string>, meanwhile: seq<Action>)
      returns (r: Result<string, Refusal>)
      requires forall a | a in meanwhile :: !OfReconciler(a)
      modifies state
      ensures match EditGuards(old(state.Contents()), p, url, row.hash)
              case Err(e) => r == Err(e) && Holds(old(state.Contents()))
              case Ok(None) => r == Ok(row.hash) && Holds(old(state.Contents()))
              case Ok(Some(v)) =>
                var mid := Run(Sys(old(state.Contents()), Idle), meanwhile).db;
                if published != Some(url) then r.Err? && Holds(mid)
                else Holds(Commit(mid, Tables.CommitEdit(mid, p, v, row)))
                     && r == match Tables.CommitEdit(mid, p, v, row) case Ok(_) => Ok(row.hash) case Err(e) => Err(e)
      ensures meanwhile == [] && published == Some(url) ==>
                Holds(Commit(old(state.Contents()), Tables.RecordGithubEdit(old(state.Contents()), p, url, row)))
    {
      if p !in state.plans {
        return Err(UnknownPlan);
      }
      var plan := state.plans[p];
      if plan.issueUrl != Some(url) {
        return Err(IssueMismatch);
      }
      if VersionId(p, plan.version) !in state.versions {
        return Err(UnknownVersion);
      }
      if row.hash == state.versions[VersionId(p, plan.version)].hash {
        return Ok(row.hash);
      }
      if p in state.approvals {
        return Err(PlanFrozen);
      }
      var next := plan.version + 1;
      state.Others(meanwhile);
      if published.None? {
        return Err(Unavailable);
      }
      if published.value != url {
        return Err(IssueMismatch);
      }
      r := StoreEdit(p, next, row);
    }

    /** The transaction of record_github_edit. */
    method StoreEdit(p: PlanId, v: nat, row: Version) returns (r: Result<string, Refusal>)
      modifies state
      ensures Holds(Commit(old(state.Contents()), Tables.CommitEdit(old(state.Contents()), p, v, row)))
      ensures r == match Tables.CommitEdit(old(state.Contents()), p, v, row) case Ok(_) => Ok(row.hash) case Err(e) => Err(e)
    {
      if p !in state.plans {
        return Err(ForeignKeyViolation);
      }
      if VersionClash(state.Contents(), p, v, row.hash, row.eventId) {
        return Err(UniqueViolation);
      }
      state.plans := state.plans[p := state.plans[p].(state := Review, version := v)];
      state.versions := state.versions[VersionId(p, v) := row];
      r := Ok(row.hash);
    }

    /** The first transaction of approve; the result says whether the plan had already moved on. */
    method Admit(p: PlanId, a: Approval) returns (r: Result<bool, Refusal>)
      modifies state
      ensures match Tables.Approve(old(state.Contents()), p, a)
              case Ok(db) => Holds(db) && r == Ok(p in old(state.approvals) && Advanced(old(state.plans)[p].state))
              case Err(e) => r == Err(e) && Holds(old(state.Contents()))
    {
      if p !in state.plans {
        return Err(UnknownPlan);
      }
      var current := VersionId(p, state.plans[p].version);
      if current !in state.versions {
        return Err(UnknownVersion);
      }
      if state.versions[current].hash != a.hash {
        return Err(ObsoleteVersion);
      }
      var advanced := false;
      if p in state.approvals {
        if state.approvals[p].hash != a.hash {
          return Err(ApprovedElsewhere);
        }
        advanced := Advanced(state.plans[p].state);
      } else {
        if ApprovalEventTaken(state.Contents(), a.eventId) {
          return Err(UniqueViolation);
        }
        state.approvals := state.approvals[p := a];
      }
      if !advanced {
        state.SetPlanState(p, PlanState.Accepted);
      }
      r := Ok(advanced);
    }

    /** approve: three transactions with other threads between them; GitHub may fail after the first.
        Whatever happens, it was these steps of the interleaved machine. */
    method Approve(p: PlanId, a: Approval, source: Source, children: Result<seq<string>, Refusal>,
                   first: seq<Action>, second: seq<Action>)
      returns (r: Result<seq<string>, Refusal>, ghost trace: seq<Action>)
      requires forall x | x in first || x in second :: !OfReconciler(x)
      modifies state
      ensures Traced(old(state.Contents()), trace, state.Contents())
      ensures a.approver !in (if source.Matrix? then approvers else githubApprovers)
              ==> r == Err(NotAllowed) && trace == [] && Holds(old(state.Contents()))
      ensures a.approver in (if source.Matrix? then approvers else githubApprovers)
              ==> ApproveOutcome(old(state.Contents()), p, a, children, first, second, r, trace)
    {
      ghost var before := state.Contents();
      TracedNothing(before);
      hide *;
      trace := [];
      if a.approver !in (if source.Matrix? then approvers else githubApprovers) {
        return Err(NotAllowed), trace;
      }
      var url := if p in state.plans then state.plans[p].issueUrl else None;
      var admitted;
      admitted, trace := AdmitTraced(p, a);
      if admitted.Err? {
        OutcomeRefused(before, p, a, children, first, second);
        return Err(admitted.error), trace;
      }
      OutcomeAdmitted(before, p, a, children, first, second);
      if url.None? {
        return Err(NoReviewIssue), trace;
      }
      if admitted.value {
        return Ok(Urls(Rows(state.Contents(), p))), trace;
      }
      trace := Meanwhile(before, trace, first);
      if children.Err? {
        return Err(children.error), trace;
      }
      trace := Decompose(before, trace, p, url.value);
      trace := Meanwhile(before, trace, second);
      ghost var now, sofar := state.Contents(), trace;
      var registered;
      registered, trace := RegisterTraced(before, trace, p, children.value);
      r := if registered.Ok? then Ok(children.value) else Err(registered.error);
      OutcomeDone(before, p, a, children, first, second, sofar, now, registered);
    }

    method AdmitTraced(p: PlanId, a: Approval) returns (r: Result<bool, Refusal>, ghost trace: seq<Action>)
      modifies state
      ensures match Tables.Approve(old(state.Contents()), p, a)
              case Ok(db) => Holds(db) && r == Ok(p in old(state.approvals) && Advanced(old(state.plans)[p].state))
              case Err(e) => r == Err(e) && Holds(old(state.Contents()))
      ensures trace == [Action.Approve(p, a)] && Traced(old(state.Contents()), trace, state.Contents())
    {
      ghost var before := state.Contents();
      TracedNothing(before);
      hide Traced, Tables.Approve;
      r := Admit(p, a);
      TracedStep(before, [], before, Action.Approve(p, a), state.Contents());
      trace := [] + [Action.Approve(p, a)];
    }

    /** The third transaction of approve. */
    method RegisterTraced(ghost before: Db, ghost trace: seq<Action>, p: PlanId, children: seq<string>)
      returns (r: Result<(), Refusal>, ghost more: seq<Action>)
      requires Traced(before, trace, state.Contents())
      modifies state
      ensures match Tables.RegisterDeliverables(old(state.Contents()), p, children) case Ok(_) => r.Ok? case Err(e) => r == Err(e)
      ensures more == trace + [Register(p, children)] && Traced(before, more, state.Contents())
    {
      hide Traced, Tables.RegisterDeliverables;
      ghost var now := state.Contents();
      r := state.RegisterDeliverables(p, children);
      TracedStep(before, trace, now, Register(p, children), state.Contents());
      more := trace + [Register(p, children)];
    }

    method Meanwhile(ghost before: Db, ghost trace: seq<Action>, actions: seq<Action>) returns (ghost more: seq<Action>)
      requires Traced(before, trace, state.Contents()) && forall x | x in actions :: !OfReconciler(x)
      modifies state
      ensures more == trace + actions && Traced(before, more, state.Contents())
    {
      ghost var now := state.Contents();
      state.Others(actions);
      more := trace + actions;
      TracedMore(before, trace, now, actions, state.Contents());
    }

    /** The second transaction of approve. */
    method Decompose(ghost before: Db, ghost trace: seq<Action>, p: PlanId, url: string) returns (ghost more: seq<Action>)
      requires Traced(before, trace, state.Contents())
      modifies state
      ensures Holds(Tables.MarkDecomposed(old(state.Contents()), p, url))
      ensures more == trace + [Action.MarkDecomposed(p, url)] && Traced(before, more, state.Contents())
    {
      ghost var now := state.Contents();
      if p in state.plans {
        state.plans := state.plans[p := state.plans[p].(state := Decomposed, issueUrl := Some(url))];
      }
      more := trace + [Action.MarkDecomposed(p, url)];
      TracedStep(before, trace, now, Action.MarkDecomposed(p, url), state.Contents());
    }

    /** reopen_review, once the issue is known to be the plan's own. */
    method ReopenReview(p: PlanId, url: string) returns (r: Result<(), Refusal>)
      modifies state
      ensures p !in old(state.plans) || old(state.plans)[p].issueUrl != Some(url)
              ==> r.Err? && Holds(old(state.Contents()))
      ensures p in old(state.plans) && old(state.plans)[p].issueUrl == Some(url)
              ==> r.Ok? && Holds(Tables.ReopenReview(old(state.Contents()), p))
    {
      if p !in state.plans || state.plans[p].issueUrl != Some(url) {
        return Err(IssueMismatch);
      }
      state.approvals := state.approvals - {p};
      state.SetPlanState(p, Review);
      r := Ok(());
    }
  }
}
