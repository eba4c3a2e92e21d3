/** The durable tables of the gateway and the transactions that change them.
    Every function here is one transaction of services/gateway/coordinator/state.py or core.py:
    it either yields the tables after the commit or an error after the rollback.
    A deliverable's position is its index plus one. */
module Tables {
  import opened Basics

  type PlanId = string

  datatype PlanState =
    | Intake | Researching | Synthesizing | ResearchFailed | Drafting | Review
    | Accepted | Decomposed | Running | NeedsInput | Paused
    | Failed | Completed | Cancelled

  datatype ItemState = Pending | Active | MergePending | Merged | Broken

  datatype PullRequest = PullRequest(url: string, headSha: string, mergeId: Option<string>)

  datatype Deliverable = Deliverable(
    issueUrl: string, state: ItemState, workload: Option<string>, pull: Option<PullRequest>, attempt: nat)

  datatype Workload = Workload(plan: PlanId, index: nat, phase: string)

  datatype Plan = Plan(state: PlanState, version: nat, issueUrl: Option<string>)

  datatype Version = Version(hash: string, eventId: string, markdown: string)

  datatype VersionId = VersionId(plan: PlanId, number: nat)

  datatype Approval = Approval(hash: string, eventId: string, approver: string)

  datatype Db = Db(
    plans: map<PlanId, Plan>,
    versions: map<VersionId, Version>,
    approvals: map<PlanId, Approval>,
    controls: map<PlanId, PlanState>,
    items: map<PlanId, seq<Deliverable>>,
    workloads: map<string, Workload>)

  datatype Refusal =
    | UnknownPlan | UnknownVersion | UniqueViolation | ForeignKeyViolation
    | PlanImmutable | IssueMismatch | ObsoleteVersion | ApprovedElsewhere | PlanFrozen
    | DeliverablesChanged | NotRetryable | NotAllowed | NoReviewIssue | Unavailable | UnknownTurn

  const EMPTY := Db(map[], map[], map[], map[], map[], map[])

  predicate Terminal(s: PlanState) { s in {Completed, Cancelled, Failed} }

  /** States in which core.py lets a new plan version in. */
  predicate Reviewable(s: PlanState) {
    s in {Intake, Researching, Synthesizing, ResearchFailed, Drafting, Review}
  }

  /** States in which a repeated approval of the same hash changes nothing. */
  predicate Advanced(s: PlanState) {
    s in {Decomposed, Running, Completed, Paused, NeedsInput, Failed, Cancelled}
  }

  function Rows(db: Db, p: PlanId): seq<Deliverable> {
    if p in db.items then db.items[p] else []
  }

  predicate HasRow(db: Db, p: PlanId, k: nat) { k < |Rows(db, p)| }

  predicate AllMerged(rows: seq<Deliverable>) {
    forall i | 0 <= i < |rows| :: rows[i].state == Merged
  }

  /** The UPDATE of a single deliverable row; no row, no change. */
  function SetRow(db: Db, p: PlanId, k: nat, d: Deliverable): Db {
    if HasRow(db, p, k) then db.(items := db.items[p := db.items[p][k := d]]) else db
  }

  function SetState(db: Db, p: PlanId, s: PlanState): Db {
    if p in db.plans then db.(plans := db.plans[p := db.plans[p].(state := s)]) else db
  }

  // ----- plan lifecycle -----

  function BeginIntake(db: Db, p: PlanId): Db {
    if p in db.plans then db else db.(plans := db.plans[p := Plan(Intake, 0, None)])
  }

  function PausePlan(db: Db, p: PlanId): Result<Db, Refusal> {
    if p !in db.plans then Err(UnknownPlan)
    else if db.plans[p].state == Paused then Ok(db)
    else Ok(SetState(db.(controls := db.controls[p := db.plans[p].state]), p, Paused))
  }

  function ResumedState(db: Db, p: PlanId): PlanState {
    if p in db.controls then db.controls[p] else Review
  }

  function ResumePlan(db: Db, p: PlanId): Db {
    SetState(db, p, ResumedState(db, p)).(controls := db.controls - {p})
  }

  /** The plan half of fail_luna_turn once a turn is out of attempts. */
  function ExhaustTurn(db: Db, p: PlanId): Db {
    if p in db.plans && !Terminal(db.plans[p].state) then SetState(db, p, NeedsInput) else db
  }

  // ----- deliverables and workloads -----

  function Urls(rows: seq<Deliverable>): seq<string> {
    seq(|rows|, i requires 0 <= i < |rows| => rows[i].issueUrl)
  }

  predicate Distinct(urls: seq<string>) {
    forall i, j | 0 <= i < j < |urls| :: urls[i] != urls[j]
  }

  predicate UrlTaken(db: Db, url: string) {
    exists p | p in db.items :: url in Urls(db.items[p])
  }

  function NewRows(urls: seq<string>): seq<Deliverable> {
    seq(|urls|, i requires 0 <= i < |urls| => Deliverable(urls[i], Pending, None, None, 1))
  }

  function RegisterDeliverables(db: Db, p: PlanId, urls: seq<string>): Result<Db, Refusal> {
    var rows := Rows(db, p);
    if rows != [] then if Urls(rows) == urls then Ok(db) else Err(DeliverablesChanged)
    else if urls == [] then Ok(db)
    else if p !in db.plans then Err(ForeignKeyViolation)
    else if !Distinct(urls) || exists i | 0 <= i < |urls| :: UrlTaken(db, urls[i]) then Err(UniqueViolation)
    else Ok(db.(items := db.items[p := NewRows(urls)]))
  }

  /** next_deliverable: a pending row all of whose predecessors are merged. */
  predicate Runnable(rows: seq<Deliverable>, k: nat) {
    k < |rows| && rows[k].state == Pending && forall i | 0 <= i < k :: rows[i].state == Merged
  }

  function FirstRunnable(rows: seq<Deliverable>, k: nat): (r: Option<nat>)
    requires k <= |rows| && forall i | 0 <= i < k :: rows[i].state == Merged
    ensures r.Some? ==> Runnable(rows, r.value)
    ensures r.None? ==> forall j: nat :: !Runnable(rows, j)
    decreases |rows| - k
  {
    if k == |rows| then None
    else if rows[k].state == Merged then FirstRunnable(rows, k + 1)
    else if rows[k].state == Pending then Some(k)
    else None
  }

  function NextDeliverable(db: Db, p: PlanId): (r: Option<nat>)
    ensures r.Some? ==> Runnable(Rows(db, p), r.value)
    ensures r.None? ==> forall j: nat :: !Runnable(Rows(db, p), j)
  {
    FirstRunnable(Rows(db, p), 0)
  }

  /** plans_ready_to_dispatch, clause by clause. */
  predicate ReadyToDispatch(db: Db, p: PlanId) {
    && p in db.plans
    && db.plans[p].state in {Decomposed, Running}
    && (exists k | 0 <= k < |Rows(db, p)| :: Runnable(Rows(db, p), k))
    && (forall k | 0 <= k < |Rows(db, p)| :: Rows(db, p)[k].state !in {Active, MergePending})
  }

  function FindUrl(rows: seq<Deliverable>, url: string, k: nat): (r: Option<nat>)
    requires k <= |rows|
    ensures r.Some? ==> k <= r.value < |rows| && rows[r.value].issueUrl == url
    ensures r.None? ==> forall j | k <= j < |rows| :: rows[j].issueUrl != url
    decreases |rows| - k
  {
    if k == |rows| then None
    else if rows[k].issueUrl == url then Some(k)
    else FindUrl(rows, url, k + 1)
  }

  /** Some deliverable row other than (p, k) refers to the workload. */
  predicate ReferencedElsewhere(db: Db, p: PlanId, k: nat, name: string) {
    exists q | q in db.items ::
      exists j | 0 <= j < |db.items[q]| :: (q, j) != (p, k) && db.items[q][j].workload == Some(name)
  }

  function RetryRow(d: Deliverable): Deliverable {
    Deliverable(d.issueUrl, Pending, None, None, d.attempt + 1)
  }

  function PrepareRetry(db: Db, p: PlanId, url: string): Result<Db, Refusal> {
    var rows := Rows(db, p);
    var at := FindUrl(rows, url, 0);
    if at.None? || rows[at.value].state != Broken then Err(NotRetryable)
    else
      var k := at.value;
      var reset := SetState(SetRow(db, p, k, RetryRow(rows[k])), p, Decomposed);
      match rows[k].workload
      case None => Ok(reset)
      case Some(name) =>
        if ReferencedElsewhere(db, p, k, name) then Err(ForeignKeyViolation)
        else Ok(reset.(workloads := db.workloads - {name}))
  }

  predicate SlotTaken(db: Db, p: PlanId, k: nat) {
    exists n | n in db.workloads :: db.workloads[n].plan == p && db.workloads[n].index == k
  }

  function RegisterWorkload(db: Db, name: string, p: PlanId, k: nat, phase: string): Result<Db, Refusal> {
    if name !in db.workloads && p !in db.plans then Err(ForeignKeyViolation)
    else if name !in db.workloads && SlotTaken(db, p, k) then Err(UniqueViolation)
    else
      var row := if name in db.workloads then db.workloads[name].(phase := phase) else Workload(p, k, phase);
      var listed := db.(workloads := db.workloads[name := row]);
      var bound :=
        if HasRow(db, p, k) then SetRow(listed, p, k, Rows(db, p)[k].(state := Active, workload := Some(name)))
        else listed;
      Ok(SetState(bound, p, Running))
  }

  function UpdateWorkload(db: Db, name: string, phase: string): Db {
    if name in db.workloads then db.(workloads := db.workloads[name := db.workloads[name].(phase := phase)]) else db
  }

  function BeginMerge(db: Db, p: PlanId, k: nat, pull: PullRequest): Db {
    if HasRow(db, p, k)
    then SetRow(db, p, k, Rows(db, p)[k].(state := MergePending, pull := Some(pull)))
    else db
  }

  function FailDeliverable(db: Db, p: PlanId, k: nat): Db {
    var marked := if HasRow(db, p, k) then SetRow(db, p, k, Rows(db, p)[k].(state := Broken)) else db;
    SetState(marked, p, Failed)
  }

  function FinishMerge(db: Db, p: PlanId, k: nat, merged: bool): Db {
    if !merged then FailDeliverable(db, p, k)
    else
      var marked := if HasRow(db, p, k) then SetRow(db, p, k, Rows(db, p)[k].(state := Merged)) else db;
      if AllMerged(Rows(marked, p)) then SetState(marked, p, Completed) else marked
  }

  // ----- plan versions and approval (core.py) -----

  predicate VersionClash(db: Db, p: PlanId, v: nat, hash: string, eventId: string) {
    || VersionId(p, v) in db.versions
    || exists key | key in db.versions :: db.versions[key].hash == hash || db.versions[key].eventId == eventId
  }

  function InsertVersion(db: Db, p: PlanId, v: nat, row: Version): Result<Db, Refusal> {
    if VersionClash(db, p, v, row.hash, row.eventId) then Err(UniqueViolation)
    else Ok(db.(versions := db.versions[VersionId(p, v) := row]))
  }

  /** The transaction of record_plan; its guards were evaluated on an earlier read. */
  function CommitPlan(db: Db, p: PlanId, v: nat, row: Version, url: string): Result<Db, Refusal> {
    InsertVersion(db.(plans := db.plans[p := Plan(Review, v, Some(url))]), p, v, row)
  }

  /** record_plan with nothing between its guards and its transaction. */
  function RecordPlan(db: Db, p: PlanId, v: nat, row: Version, url: string): Result<Db, Refusal> {
    if p in db.plans && v <= db.plans[p].version then Ok(db)
    else if p in db.plans && !Reviewable(db.plans[p].state) then Err(PlanImmutable)
    else CommitPlan(db, p, v, row, url)
  }

  /** The guards of record_github_edit: nothing when the text is the current one, else the version to store. */
  function EditGuards(db: Db, p: PlanId, url: string, hash: string): Result<Option<nat>, Refusal> {
    if p !in db.plans then Err(UnknownPlan)
    else
      var plan := db.plans[p];
      if plan.issueUrl != Some(url) then Err(IssueMismatch)
      else if VersionId(p, plan.version) !in db.versions then Err(UnknownVersion)
      else if db.versions[VersionId(p, plan.version)].hash == hash then Ok(None)
      else if p in db.approvals then Err(PlanFrozen)
      else Ok(Some(plan.version + 1))
  }

  /** The transaction of record_github_edit; its guards were evaluated on an earlier read. */
  function CommitEdit(db: Db, p: PlanId, v: nat, row: Version): Result<Db, Refusal> {
    if p !in db.plans then Err(ForeignKeyViolation)
    else InsertVersion(db.(plans := db.plans[p := db.plans[p].(state := Review, version := v)]), p, v, row)
  }

  /** record_github_edit with nothing between its guards and its transaction. */
  function RecordGithubEdit(db: Db, p: PlanId, url: string, row: Version): Result<Db, Refusal> {
    match EditGuards(db, p, url, row.hash)
    case Err(e) => Err(e)
    case Ok(None) => Ok(db)
    case Ok(Some(v)) => CommitEdit(db, p, v, row)
  }

  predicate ApprovalEventTaken(db: Db, eventId: string) {
    exists q | q in db.approvals :: db.approvals[q].eventId == eventId
  }

  /** The first transaction of approve. */
  function Approve(db: Db, p: PlanId, a: Approval): Result<Db, Refusal> {
    if p !in db.plans then Err(UnknownPlan)
    else if VersionId(p, db.plans[p].version) !in db.versions then Err(UnknownVersion)
    else if db.versions[VersionId(p, db.plans[p].version)].hash != a.hash then Err(ObsoleteVersion)
    else if p in db.approvals then
      if db.approvals[p].hash != a.hash then Err(ApprovedElsewhere)
      else if Advanced(db.plans[p].state) then Ok(db)
      else Ok(SetState(db, p, Accepted))
    else if ApprovalEventTaken(db, a.eventId) then Err(UniqueViolation)
    else Ok(SetState(db.(approvals := db.approvals[p := a]), p, Accepted))
  }

  /** The second transaction of approve, unguarded; the third is RegisterDeliverables. */
  function MarkDecomposed(db: Db, p: PlanId, url: string): Db {
    if p in db.plans
    then db.(plans := db.plans[p := db.plans[p].(state := Decomposed, issueUrl := Some(url))])
    else db
  }

  function ReopenReview(db: Db, p: PlanId): Db {
    SetState(db, p, Review).(approvals := db.approvals - {p})
  }
}
