/** The coordinator event queue and Luna's turns: claim, replay, finish, fail, over runs with crashes.
    A batch id is the digest of the joined event ids; it is modelled as those ids, an injective digest. */
module LunaQueue {
  import opened Basics
  import opened Tables
  import opened Ordering

  datatype BatchId = BatchId(ids: seq<string>)

  datatype Event = Event(plan: PlanId, kind: string, payload: string, receivedAt: int, readyAt: int,
                         batch: Option<BatchId>, processedAt: Option<int>)

  /** One element of a turn's stored input. */
  datatype Stored = Stored(id: string, kind: string, payload: string, receivedAt: int)

  /** pending, running, complete, skipped and failed. */
  datatype TurnState = Queued | Executing | Complete | Skipped | Dead

  datatype Turn = Turn(plan: PlanId, batch: BatchId, input: seq<Stored>, state: TurnState, attempts: nat, nextAt: int)

  /** coordinator_events and luna_turns; a turn's sequence number is its index plus one. */
  datatype Queue = Queue(plans: map<PlanId, PlanState>, events: map<string, Event>, turns: seq<Turn>)

  const MAX_ATTEMPTS := 5

  predicate Waiting(e: Event) { e.processedAt.None? && e.batch.None? }

  // ----- transactions -----

  function Max0(n: int): nat { if n > 0 then n else 0 }

  /** enqueue_coordinator_event: a new event restarts the window of everything of its plan not yet claimed. */
  function Enqueue(q: Queue, id: string, p: PlanId, kind: string, payload: string, delay: int, now: int)
    : Result<Queue, Refusal>
  {
    if id in q.events then Ok(q)
    else if p !in q.plans then Err(ForeignKeyViolation)
    else
      var added := q.events[id := Event(p, kind, payload, now, now + Max0(delay), None, None)];
      Ok(q.(events :=
        if delay <= 0 then added
        else map x | x in added ::
               if added[x].plan == p && Waiting(added[x]) then added[x].(readyAt := now + delay) else added[x]))
  }

  /** The first pending turn, at or after i, whose back-off has passed. */
  function FirstDue(turns: seq<Turn>, now: int, i: nat): (r: Option<nat>)
    requires i <= |turns|
    ensures r.Some? ==> i <= r.value < |turns| && turns[r.value].state == Queued && turns[r.value].nextAt <= now
    ensures r.None? ==> forall j | i <= j < |turns| :: !(turns[j].state == Queued && turns[j].nextAt <= now)
    decreases |turns| - i
  {
    if i == |turns| then None
    else if turns[i].state == Queued && turns[i].nextAt <= now then Some(i)
    else FirstDue(turns, now, i + 1)
  }

  function ReadyTimes(q: Queue, now: int): map<string, int> {
    map id | id in q.events && Waiting(q.events[id]) && q.events[id].readyAt <= now :: q.events[id].readyAt
  }

  function ClaimTimes(q: Queue, p: PlanId, now: int): map<string, int> {
    map id | id in q.events && Waiting(q.events[id]) && q.events[id].readyAt <= now && q.events[id].plan == p
      :: q.events[id].receivedAt
  }

  function PageSize(limit: int): nat { if limit < 1 then 1 else if limit > 100 then 100 else limit }

  function StoredOf(id: string, e: Event): Stored { Stored(id, e.kind, e.payload, e.receivedAt) }

  function InputOf(q: Queue, ids: seq<string>): seq<Stored>
    requires forall i | 0 <= i < |ids| :: ids[i] in q.events
  {
    seq(|ids|, i requires 0 <= i < |ids| => StoredOf(ids[i], q.events[ids[i]]))
  }

  function Replayed(q: Queue, i: nat): Queue
    requires i < |q.turns|
  {
    q.(turns := q.turns[i := q.turns[i].(state := Executing, attempts := q.turns[i].attempts + 1)])
  }

  function Claimed(q: Queue, p: PlanId, ids: seq<string>): Queue
    requires forall i | 0 <= i < |ids| :: ids[i] in q.events
  {
    q.(events := map x | x in q.events :: if x in ids then q.events[x].(batch := Some(BatchId(ids))) else q.events[x],
       turns := q.turns + [Turn(p, BatchId(ids), InputOf(q, ids), Executing, 1, 0)])
  }

  /** The batch a claim at this moment would take. */
  function NextIds(q: Queue, now: int, limit: int): (ids: seq<string>)
    requires ReadyTimes(q, now) != map[]
    ensures ids != [] && forall i | 0 <= i < |ids| :: ids[i] in ClaimTimes(q, q.events[Least(ReadyTimes(q, now))].plan, now)
    ensures forall i, j | 0 <= i < j < |ids| :: ids[i] != ids[j]
  {
    var first := Least(ReadyTimes(q, now));
    assert first in ClaimTimes(q, q.events[first].plan, now);
    Select(ClaimTimes(q, q.events[first].plan, now), PageSize(limit))
  }

  /** next_luna_batch: replay a due turn, else claim the batch of the plan whose window closed first. */
  function NextBatch(q: Queue, now: int, limit: int): (r: Result<(Queue, Option<nat>), Refusal>)
    ensures r.Ok? && r.value.1.Some? ==> r.value.1.value < |r.value.0.turns|
  {
    var due := FirstDue(q.turns, now, 0);
    if due.Some? then Ok((Replayed(q, due.value), Some(due.value)))
    else if ReadyTimes(q, now) == map[] then Ok((q, None))
    else
      var ids := NextIds(q, now, limit);
      if exists i | 0 <= i < |q.turns| :: q.turns[i].batch == BatchId(ids) then Err(UniqueViolation)
      else Ok((Claimed(q, q.events[ids[0]].plan, ids), Some(|q.turns|)))
  }

  /** finish_luna_turn, as 'complete' or 'skipped'. */
  function FinishTurn(q: Queue, i: nat, skipped: bool, now: int): Queue
    requires i < |q.turns|
  {
    var b := Some(q.turns[i].batch);
    q.(turns := q.turns[i := q.turns[i].(state := if skipped then Skipped else Complete)],
       events := map x | x in q.events :: if q.events[x].batch == b then q.events[x].(processedAt := Some(now)) else q.events[x])
  }

  function Backoff(attempts: nat): nat {
    var d := 15 * Pow2(if attempts == 0 then 0 else attempts - 1);
    if d > 300 then 300 else d
  }

  /** fail_luna_turn. */
  function FailTurn(q: Queue, i: nat, now: int): Queue
    requires i < |q.turns|
  {
    var t := q.turns[i];
    if t.attempts >= MAX_ATTEMPTS then
      q.(turns := q.turns[i := t.(state := Dead)],
         plans := if t.plan in q.plans && !Terminal(q.plans[t.plan]) then q.plans[t.plan := NeedsInput] else q.plans)
    else q.(turns := q.turns[i := t.(state := Queued, nextAt := now + Backoff(t.attempts))])
  }

  // ----- the machine -----

  datatype Entry =
    | Arrived(id: string, plan: PlanId, delay: int, at: int)
    | Started(turn: nat, run: nat, at: int)
    | Broke(turn: nat, run: nat, at: int)

  /** The queue, the clock, the turn the single reconciler thread is running, and the history. */
  datatype Sys = Sys(q: Queue, clock: int, busy: Option<nat>, log: seq<Entry>, arrival: map<string, nat>)

  datatype Action =
    | Tick(seconds: nat)
    | Arrive(id: string, plan: PlanId, kind: string, payload: string, delay: int)
    | SetPlan(plan: PlanId, state: PlanState)
    | Claim(limit: int)
    | Finish(skipped: bool)
    | Fail
    | Crash

  function Initial(start: int): Sys { Sys(Queue(map[], map[], []), start, None, [], map[]) }

  function Step(s: Sys, a: Action): Sys {
    match a
    case Tick(n) => s.(clock := s.clock + n)
    case Arrive(id, p, kind, payload, delay) =>
      (match Enqueue(s.q, id, p, kind, payload, delay, s.clock)
       case Err(_) => s
       case Ok(q) =>
         if id in s.q.events then s
         else s.(q := q, log := s.log + [Arrived(id, p, delay, s.clock)], arrival := s.arrival[id := |s.log|]))
    case SetPlan(p, st) => s.(q := s.q.(plans := s.q.plans[p := st]))
    case Claim(limit) =>
      (match NextBatch(s.q, s.clock, limit)
       case Err(_) => s
       case Ok((q, got)) =>
         if s.busy.Some? || got.None? then s
         else s.(q := q, busy := got, log := s.log + [Started(got.value, q.turns[got.value].attempts, s.clock)]))
    case Finish(skipped) =>
      if s.busy.Some? && s.busy.value < |s.q.turns|
      then s.(q := FinishTurn(s.q, s.busy.value, skipped, s.clock), busy := None)
      else s
    case Fail =>
      if s.busy.Some? && s.busy.value < |s.q.turns|
      then s.(q := FailTurn(s.q, s.busy.value, s.clock), busy := None,
              log := s.log + [Broke(s.busy.value, s.q.turns[s.busy.value].attempts, s.clock)])
      else s
    case Crash => s.(busy := None)
  }

  function Run(s: Sys, actions: seq<Action>): Sys
    decreases |actions|
  {
    if actions == [] then s else Run(Step(s, actions[0]), actions[1..])
  }

  // ----- conservation -----

  predicate Retired(t: Turn) { t.state in {Complete, Skipped} }

  /** A turn's stored input is the events that carry its batch id, in order and word for word. */
  ghost predicate TurnOk(q: Queue, t: Turn) {
    var ids := t.batch.ids;
    && ids != [] && Distinct(ids) && |t.input| == |ids|
    && forall k | 0 <= k < |ids| ::
         && ids[k] in q.events
         && var e := q.events[ids[k]];
            e.batch == Some(t.batch) && e.plan == t.plan && t.input[k] == StoredOf(ids[k], e)
            && (e.processedAt.Some? <==> Retired(t))
  }

  ghost predicate InTurn(q: Queue, id: string, i: nat) {
    i < |q.turns| && id in q.turns[i].batch.ids
  }

  /** A claimed event is in the input of the turn with its batch id; an unclaimed one is not processed. */
  ghost predicate EventOk(q: Queue, id: string)
    requires id in q.events
  {
    var e := q.events[id];
    match e.batch
    case None => e.processedAt.None?
    case Some(b) => exists i: nat :: InTurn(q, id, i) && q.turns[i].batch == b
  }

  ghost predicate AttemptsOk(t: Turn) {
    1 <= t.attempts <= MAX_ATTEMPTS && (t.state == Queued ==> t.attempts < MAX_ATTEMPTS)
    && (t.state == Dead ==> t.attempts == MAX_ATTEMPTS)
  }

  ghost predicate DistinctBatches(turns: seq<Turn>) {
    forall i, j | 0 <= i < j < |turns| :: turns[i].batch != turns[j].batch
  }

  ghost predicate Conserved(q: Queue) {
    && (forall i | 0 <= i < |q.turns| :: TurnOk(q, q.turns[i]) && AttemptsOk(q.turns[i]))
    && (forall id | id in q.events :: EventOk(q, id))
    && DistinctBatches(q.turns)
  }

  ghost predicate BusyOk(s: Sys) {
    s.busy.Some? ==> s.busy.value < |s.q.turns| && s.q.turns[s.busy.value].state == Executing
  }

  /** The new row of every event agrees with the old one on what a turn stores. */
  ghost predicate SameClaims(e: Event, e': Event) {
    e'.batch == e.batch && e'.plan == e.plan && e'.processedAt == e.processedAt
    && e'.kind == e.kind && e'.payload == e.payload && e'.receivedAt == e.receivedAt
  }

  lemma EnqueueEffect(q: Queue, id: string, p: PlanId, kind: string, payload: string, delay: int, now: int)
    requires Enqueue(q, id, p, kind, payload, delay, now).Ok? && id !in q.events
    ensures var q' := Enqueue(q, id, p, kind, payload, delay, now).value;
            && q'.turns == q.turns && q'.plans == q.plans
            && (forall x :: x in q'.events <==> x in q.events || x == id)
            && (forall x | x in q.events :: SameClaims(q.events[x], q'.events[x]))
            && (forall x | x in q.events && !(q.events[x].plan == p && Waiting(q.events[x])) :: q'.events[x] == q.events[x])
            && (forall x | x in q.events && q.events[x].plan == p && Waiting(q.events[x]) ::
                  q'.events[x].readyAt == if delay > 0 then now + delay else q.events[x].readyAt)
            && q'.events[id] == Event(p, kind, payload, now, now + Max0(delay), None, None)
  {
  }

  lemma EnqueueKeeps(q: Queue, id: string, p: PlanId, kind: string, payload: string, delay: int, now: int)
    requires Conserved(q) && Enqueue(q, id, p, kind, payload, delay, now).Ok?
    ensures Conserved(Enqueue(q, id, p, kind, payload, delay, now).value)
  {
    if id !in q.events {
      EnqueueEffect(q, id, p, kind, payload, delay, now);
      var q' := Enqueue(q, id, p, kind, payload, delay, now).value;
      hide Enqueue;
      forall i | 0 <= i < |q'.turns| ensures TurnOk(q', q'.turns[i]) && AttemptsOk(q'.turns[i]) {
        assert TurnOk(q, q.turns[i]) && AttemptsOk(q.turns[i]);
      }
      forall x | x in q'.events ensures EventOk(q', x) {
        if x in q.events { MovedTurns(q, q', x); }
      }
    }
  }

  /** An event whose claim is unchanged stays in order when the turns keep their batches. */
  lemma MovedTurns(q: Queue, q': Queue, x: string)
    requires x in q.events && EventOk(q, x) && x in q'.events && q'.events[x].batch == q.events[x].batch
    requires q.events[x].batch.None? ==> q'.events[x].processedAt.None?
    requires |q'.turns| >= |q.turns| && forall i | 0 <= i < |q.turns| :: q'.turns[i].batch == q.turns[i].batch
    ensures EventOk(q', x)
  {
    if q.events[x].batch.Some? {
      var i: nat :| InTurn(q, x, i) && q.turns[i].batch == q.events[x].batch.value;
      assert InTurn(q', x, i) && q'.turns[i].batch == q'.events[x].batch.value;
    }
  }

  /** One turn changes its state, attempts or due time, without being retired. */
  lemma TurnUpdateKeeps(q: Queue, q': Queue, i: nat, t: Turn)
    requires Conserved(q) && i < |q.turns| && q' == q.(turns := q.turns[i := t], plans := q'.plans)
    requires t.batch == q.turns[i].batch && t.plan == q.turns[i].plan && t.input == q.turns[i].input
    requires !Retired(q.turns[i]) && !Retired(t) && AttemptsOk(t)
    ensures Conserved(q')
  {
    forall j | 0 <= j < |q'.turns| ensures TurnOk(q', q'.turns[j]) && AttemptsOk(q'.turns[j]) {
      assert TurnOk(q, q.turns[j]) && AttemptsOk(q.turns[j]);
    }
    forall x | x in q'.events ensures EventOk(q', x) { MovedTurns(q, q', x); }
  }

  lemma FinishKeeps(q: Queue, i: nat, skipped: bool, now: int)
    requires Conserved(q) && i < |q.turns| && q.turns[i].state == Executing
    ensures Conserved(FinishTurn(q, i, skipped, now))
  {
    var q' := FinishTurn(q, i, skipped, now);
    forall j | 0 <= j < |q'.turns| ensures TurnOk(q', q'.turns[j]) && AttemptsOk(q'.turns[j]) {
      assert TurnOk(q, q.turns[j]) && AttemptsOk(q.turns[j]);
    }
    forall x | x in q'.events ensures EventOk(q', x) {
      assert EventOk(q, x);
      MovedTurns(q, q', x);
    }
  }

  /** The events of a claim: waiting, of one plan, no event twice. */
  ghost predicate Claimable(q: Queue, p: PlanId, ids: seq<string>) {
    && ids != [] && Distinct(ids)
    && forall k | 0 <= k < |ids| :: ids[k] in q.events && Waiting(q.events[ids[k]]) && q.events[ids[k]].plan == p
  }

  /** No turn has this batch id already: its events would be claimed. So the insert never meets UNIQUE(batch_id). */
  lemma ClaimIsFresh(q: Queue, p: PlanId, ids: seq<string>, i: nat)
    requires Conserved(q) && Claimable(q, p, ids) && i < |q.turns|
    ensures q.turns[i].batch != BatchId(ids)
  {
    assert TurnOk(q, q.turns[i]);
    assert ids[0] in q.events;
  }

  lemma ClaimKeeps(q: Queue, p: PlanId, ids: seq<string>)
    requires Conserved(q) && Claimable(q, p, ids)
    ensures Conserved(Claimed(q, p, ids))
  {
    var q' := Claimed(q, p, ids);
    forall j | 0 <= j < |q.turns| ensures TurnOk(q', q.turns[j]) && q.turns[j].batch != BatchId(ids) {
      ClaimIsFresh(q, p, ids, j);
      ClaimKeepsTurn(q, p, ids, j);
    }
    var t := q'.turns[|q.turns|];
    assert TurnOk(q', t) by {
      forall k | 0 <= k < |ids| ensures q'.events[ids[k]] == q.events[ids[k]].(batch := Some(BatchId(ids))) {
        assert ids[k] in ids;
      }
    }
    forall x | x in q'.events ensures EventOk(q', x) {
      assert EventOk(q, x);
      if x in ids {
        assert InTurn(q', x, |q.turns|);
      } else {
        MovedTurns(q, q', x);
      }
    }
  }

  lemma ClaimKeepsTurn(q: Queue, p: PlanId, ids: seq<string>, j: nat)
    requires Conserved(q) && Claimable(q, p, ids) && j < |q.turns|
    ensures TurnOk(Claimed(q, p, ids), q.turns[j])
  {
    var q', t := Claimed(q, p, ids), q.turns[j];
    assert TurnOk(q, t);
    assert forall x | x in ids :: q.events[x].batch.None?;
    assert forall k | 0 <= k < |t.batch.ids| :: q.events[t.batch.ids[k]].batch.Some?;
    assert forall k | 0 <= k < |t.batch.ids| :: q'.events[t.batch.ids[k]] == q.events[t.batch.ids[k]];
  }

  /** What a claim selects can be claimed. */
  lemma NextIdsClaimable(q: Queue, now: int, limit: int)
    requires ReadyTimes(q, now) != map[]
    ensures Claimable(q, q.events[Least(ReadyTimes(q, now))].plan, NextIds(q, now, limit))
  {
  }

  /** The three outcomes of next_luna_batch on a sound queue; the insert is never refused. */
  lemma NextBatchCases(q: Queue, now: int, limit: int)
    requires Conserved(q)
    ensures NextBatch(q, now, limit).Ok?
    ensures var (q', got) := NextBatch(q, now, limit).value;
            var due := FirstDue(q.turns, now, 0);
            if due.Some? then got == due && q' == Replayed(q, due.value)
            else if ReadyTimes(q, now) == map[] then got == None && q' == q
            else var ids := NextIds(q, now, limit);
                 Claimable(q, q.events[ids[0]].plan, ids) && got == Some(|q.turns|)
                 && q' == Claimed(q, q.events[ids[0]].plan, ids)
  {
    if FirstDue(q.turns, now, 0).None? && ReadyTimes(q, now) != map[] {
      NextIdsClaimable(q, now, limit);
      var ids := NextIds(q, now, limit);
      forall i | 0 <= i < |q.turns| ensures q.turns[i].batch != BatchId(ids) {
        ClaimIsFresh(q, q.events[ids[0]].plan, ids, i);
      }
    }
  }

  lemma ClaimStepKeeps(q: Queue, now: int, limit: int)
    requires Conserved(q)
    ensures NextBatch(q, now, limit).Ok? && Conserved(NextBatch(q, now, limit).value.0)
    ensures var got := NextBatch(q, now, limit).value.1;
            got.Some? ==> got.value < |NextBatch(q, now, limit).value.0.turns|
                          && NextBatch(q, now, limit).value.0.turns[got.value].state == Executing
  {
    NextBatchCases(q, now, limit);
    hide NextBatch, NextIds, ReadyTimes;
    var due := FirstDue(q.turns, now, 0);
    if due.Some? {
      assert AttemptsOk(q.turns[due.value]);
      TurnUpdateKeeps(q, Replayed(q, due.value), due.value, Replayed(q, due.value).turns[due.value]);
    } else if ReadyTimes(q, now) != map[] {
      var ids := NextIds(q, now, limit);
      ClaimKeeps(q, q.events[ids[0]].plan, ids);
    }
  }

  lemma FailKeeps(q: Queue, i: nat, now: int)
    requires Conserved(q) && i < |q.turns| && q.turns[i].state == Executing
    ensures Conserved(FailTurn(q, i, now))
  {
    assert AttemptsOk(q.turns[i]);
    TurnUpdateKeeps(q, FailTurn(q, i, now), i, FailTurn(q, i, now).turns[i]);
  }

  lemma PlansDoNotMatter(q: Queue, plans: map<PlanId, PlanState>)
    requires Conserved(q)
    ensures Conserved(q.(plans := plans))
  {
    var q' := q.(plans := plans);
    forall j | 0 <= j < |q'.turns| ensures TurnOk(q', q'.turns[j]) { assert TurnOk(q, q.turns[j]); }
    forall x | x in q'.events ensures EventOk(q', x) { MovedTurns(q, q', x); }
  }

  lemma StepKeeps(s: Sys, a: Action)
    requires Conserved(s.q) && BusyOk(s)
    ensures Conserved(Step(s, a).q) && BusyOk(Step(s, a))
  {
    hide Conserved, NextBatch, Enqueue, FinishTurn, FailTurn;
    match a
    case Arrive(id, p, kind, payload, delay) =>
      if Enqueue(s.q, id, p, kind, payload, delay, s.clock).Ok? {
        EnqueueKeeps(s.q, id, p, kind, payload, delay, s.clock);
        if id !in s.q.events { EnqueueEffect(s.q, id, p, kind, payload, delay, s.clock); }
      }
    case Claim(limit) => ClaimStepKeeps(s.q, s.clock, limit);
    case Finish(skipped) => if s.busy.Some? { FinishKeeps(s.q, s.busy.value, skipped, s.clock); }
    case Fail => if s.busy.Some? { FailKeeps(s.q, s.busy.value, s.clock); }
    case SetPlan(p, st) => PlansDoNotMatter(s.q, s.q.plans[p := st]);
    case _ =>
  }

  lemma {:induction false} RunKeeps(s: Sys, actions: seq<Action>)
    requires Conserved(s.q) && BusyOk(s)
    ensures Conserved(Run(s, actions).q) && BusyOk(Run(s, actions))
    decreases |actions|
  {
    hide Conserved, Step;
    if actions != [] {
      StepKeeps(s, actions[0]);
      RunKeeps(Step(s, actions[0]), actions[1..]);
    }
  }

  // ----- main result: every event is in exactly one place -----

  predicate Unclaimed(q: Queue, id: string)
    requires id in q.events
  {
    q.events[id].batch.None? && q.events[id].processedAt.None?
  }

  /** Some turn in one of these states stores the event in its input. */
  ghost predicate InTurnThatIs(q: Queue, id: string, states: set<TurnState>) {
    exists i: nat, k: nat :: HoldsAt(q, id, i, k) && q.turns[i].state in states
  }

  ghost predicate HoldsAt(q: Queue, id: string, i: nat, k: nat) {
    i < |q.turns| && k < |q.turns[i].input| && q.turns[i].input[k].id == id
  }

  predicate Processed(q: Queue, id: string)
    requires id in q.events
  {
    q.events[id].processedAt.Some?
  }

  lemma HolderIsBatch(q: Queue, id: string, i: nat, k: nat)
    requires Conserved(q) && HoldsAt(q, id, i, k)
    ensures id in q.events && q.events[id].batch == Some(q.turns[i].batch)
    ensures q.turns[i].input[k] == StoredOf(id, q.events[id]) && (Processed(q, id) <==> Retired(q.turns[i]))
  {
    assert TurnOk(q, q.turns[i]);
  }

  lemma BatchIsHolder(q: Queue, id: string) returns (i: nat, k: nat)
    requires Conserved(q) && id in q.events && q.events[id].batch.Some?
    ensures HoldsAt(q, id, i, k) && q.turns[i].batch == q.events[id].batch.value
  {
    assert EventOk(q, id);
    i :| InTurn(q, id, i) && q.turns[i].batch == q.events[id].batch.value;
    assert TurnOk(q, q.turns[i]);
    k :| 0 <= k < |q.turns[i].batch.ids| && q.turns[i].batch.ids[k] == id;
  }

  /** Two turns never hold the same event, and one turn holds it once. */
  lemma HeldOnce(q: Queue, id: string, i: nat, k: nat, j: nat, m: nat)
    requires Conserved(q) && HoldsAt(q, id, i, k) && HoldsAt(q, id, j, m)
    ensures i == j && k == m
  {
    HolderIsBatch(q, id, i, k);
    HolderIsBatch(q, id, j, m);
    assert TurnOk(q, q.turns[i]);
  }

  predicate ExactlyOne(a: bool, b: bool, c: bool, d: bool) {
    (a || b || c || d) && !(a && b) && !(a && c) && !(a && d) && !(b && c) && !(b && d) && !(c && d)
  }

  lemma OnePlace(q: Queue, id: string)
    requires Conserved(q) && id in q.events
    ensures ExactlyOne(Unclaimed(q, id), InTurnThatIs(q, id, {Queued, Executing}), InTurnThatIs(q, id, {Dead}), Processed(q, id))
  {
    forall i: nat, k: nat | HoldsAt(q, id, i, k)
      ensures q.events[id].batch == Some(q.turns[i].batch) && (Processed(q, id) <==> Retired(q.turns[i]))
    {
      HolderIsBatch(q, id, i, k);
    }
    if q.events[id].batch.Some? {
      var i, k := BatchIsHolder(q, id);
      forall j: nat, m: nat | HoldsAt(q, id, j, m) ensures j == i { HeldOnce(q, id, i, k, j, m); }
      HolderIsBatch(q, id, i, k);
      hide Conserved;
      assert InTurnThatIs(q, id, {Queued, Executing}) <==> q.turns[i].state in {Queued, Executing};
      assert InTurnThatIs(q, id, {Dead}) <==> q.turns[i].state == Dead;
    } else {
      assert EventOk(q, id);
    }
  }

  lemma InitialConserved(start: int)
    ensures Conserved(Initial(start).q) && BusyOk(Initial(start))
  {
  }

  /** In every reachable state an accepted event is unclaimed, in a live turn, in a failed turn, or processed: one of these. */
  lemma EveryEventInOnePlace(start: int, actions: seq<Action>, id: string)
    requires id in Run(Initial(start), actions).q.events
    ensures var q := Run(Initial(start), actions).q;
            ExactlyOne(Unclaimed(q, id), InTurnThatIs(q, id, {Queued, Executing}), InTurnThatIs(q, id, {Dead}), Processed(q, id))
  {
    hide Run, Conserved;
    InitialConserved(start);
    RunKeeps(Initial(start), actions);
    OnePlace(Run(Initial(start), actions).q, id);
  }

  // ----- main result: exact replay -----

  predicate SameContent(e: Event, e': Event) {
    e'.plan == e.plan && e'.kind == e.kind && e'.payload == e.payload && e'.receivedAt == e.receivedAt
  }

  /** What happens to rows that exist: an event keeps its content and, once written, its batch id and its mark;
      a turn keeps its plan, batch and stored input. */
  ghost predicate Grows(q: Queue, q': Queue) {
    && (forall x | x in q.events ::
          && x in q'.events
          && SameContent(q.events[x], q'.events[x])
          && (q.events[x].batch.Some? ==> q'.events[x].batch == q.events[x].batch)
          && (q.events[x].processedAt.Some? ==> q'.events[x].processedAt.Some?))
    && |q.turns| <= |q'.turns|
    && (forall i | 0 <= i < |q.turns| ::
          q'.turns[i].input == q.turns[i].input && q'.turns[i].batch == q.turns[i].batch && q'.turns[i].plan == q.turns[i].plan)
  }

  lemma ClaimedGrows(q: Queue, p: PlanId, ids: seq<string>)
    requires Claimable(q, p, ids)
    ensures Grows(q, Claimed(q, p, ids))
  {
    var q' := Claimed(q, p, ids);
    forall x | x in q.events
      ensures x in q'.events && SameContent(q.events[x], q'.events[x]) && q'.events[x].processedAt == q.events[x].processedAt
              && (q.events[x].batch.Some? ==> q'.events[x].batch == q.events[x].batch)
    {
      if x in ids { assert Waiting(q.events[x]); }
    }
  }

  lemma ReplayedGrows(q: Queue, i: nat)
    requires i < |q.turns|
    ensures Grows(q, Replayed(q, i))
  {
  }

  lemma ClaimGrows(q: Queue, now: int, limit: int)
    requires Conserved(q)
    ensures NextBatch(q, now, limit).Ok? && Grows(q, NextBatch(q, now, limit).value.0)
  {
    hide NextBatch, NextIds, ReadyTimes, Conserved, Grows, Claimed, Replayed;
    NextBatchCases(q, now, limit);
    var due := FirstDue(q.turns, now, 0);
    if due.Some? {
      ReplayedGrows(q, due.value);
    } else if ReadyTimes(q, now) == map[] {
      SameGrows(q, q);
    } else {
      var ids := NextIds(q, now, limit);
      ClaimedGrows(q, q.events[ids[0]].plan, ids);
    }
  }

  lemma EnqueueGrows(q: Queue, id: string, p: PlanId, kind: string, payload: string, delay: int, now: int)
    requires Enqueue(q, id, p, kind, payload, delay, now).Ok? && id !in q.events
    ensures Grows(q, Enqueue(q, id, p, kind, payload, delay, now).value)
  {
    EnqueueEffect(q, id, p, kind, payload, delay, now);
    hide Enqueue;
  }

  lemma FinishGrows(q: Queue, i: nat, skipped: bool, now: int)
    requires i < |q.turns|
    ensures Grows(q, FinishTurn(q, i, skipped, now))
  {
  }

  lemma FailGrows(q: Queue, i: nat, now: int)
    requires i < |q.turns|
    ensures Grows(q, FailTurn(q, i, now))
  {
  }

  lemma StepGrows(s: Sys, a: Action)
    requires Conserved(s.q) && BusyOk(s)
    ensures Grows(s.q, Step(s, a).q)
  {
    hide NextBatch, Enqueue, FinishTurn, FailTurn, Conserved, Grows;
    SameGrows(s.q, s.q);
    match a
    case Arrive(id, p, kind, payload, delay) =>
      if Enqueue(s.q, id, p, kind, payload, delay, s.clock).Ok? && id !in s.q.events {
        EnqueueGrows(s.q, id, p, kind, payload, delay, s.clock);
      }
    case SetPlan(p, st) => SameGrows(s.q, s.q.(plans := s.q.plans[p := st]));
    case Claim(limit) => ClaimGrows(s.q, s.clock, limit);
    case Finish(skipped) => if s.busy.Some? { FinishGrows(s.q, s.busy.value, skipped, s.clock); }
    case Fail => if s.busy.Some? { FailGrows(s.q, s.busy.value, s.clock); }
    case _ =>
  }

  lemma SameGrows(q: Queue, q': Queue)
    requires q'.events == q.events && q'.turns == q.turns
    ensures Grows(q, q')
  {
  }

  /** Batch ids are written once and stored inputs never change, over any continuation of any run. */
  lemma {:induction false} InputsAreFrozen(s: Sys, actions: seq<Action>)
    requires Conserved(s.q) && BusyOk(s)
    ensures Grows(s.q, Run(s, actions).q)
    decreases |actions|
  {
    hide Step, Conserved;
    if actions != [] {
      StepKeeps(s, actions[0]);
      StepGrows(s, actions[0]);
      InputsAreFrozen(Step(s, actions[0]), actions[1..]);
    }
  }

  /** What a claim hands to Luna, first run or replay, is the stored input, and that is the batch's events. */
  lemma ClaimHandsOutStoredInput(start: int, actions: seq<Action>, limit: int)
    ensures var s := Run(Initial(start), actions);
            NextBatch(s.q, s.clock, limit).Ok?
            && var (q, got) := NextBatch(s.q, s.clock, limit).value;
               got.Some? ==>
                 && (got.value < |s.q.turns| ==> q.turns[got.value].input == s.q.turns[got.value].input)
                 && (forall x :: (exists k: nat :: HoldsAt(q, x, got.value, k))
                             <==> x in q.events && q.events[x].batch == Some(q.turns[got.value].batch))
                 && (forall k | 0 <= k < |q.turns[got.value].input| ::
                       var x := q.turns[got.value].input[k];
                       x.id in q.events && x.kind == q.events[x.id].kind && x.payload == q.events[x.id].payload
                       && x.receivedAt == q.events[x.id].receivedAt)
  {
    hide Run, NextBatch, Conserved;
    InitialConserved(start);
    RunKeeps(Initial(start), actions);
    var s := Run(Initial(start), actions);
    ClaimStepKeeps(s.q, s.clock, limit);
    ClaimGrows(s.q, s.clock, limit);
    var (q, got) := NextBatch(s.q, s.clock, limit).value;
    if got.Some? { InputIsBatch(q, got.value); }
  }

  lemma InputIsBatch(q: Queue, i: nat)
    requires Conserved(q) && i < |q.turns|
    ensures forall x :: (exists k: nat :: HoldsAt(q, x, i, k)) <==> x in q.events && q.events[x].batch == Some(q.turns[i].batch)
    ensures forall k | 0 <= k < |q.turns[i].input| ::
              q.turns[i].input[k].id in q.events
              && q.turns[i].input[k] == StoredOf(q.turns[i].input[k].id, q.events[q.turns[i].input[k].id])
  {
    forall x, k: nat | HoldsAt(q, x, i, k)
      ensures x in q.events && q.events[x].batch == Some(q.turns[i].batch) && q.turns[i].input[k] == StoredOf(x, q.events[x])
    {
      HolderIsBatch(q, x, i, k);
    }
    forall x | x in q.events && q.events[x].batch == Some(q.turns[i].batch) ensures exists k: nat :: HoldsAt(q, x, i, k) {
      var j, k := BatchIsHolder(q, x);
      assert DistinctBatches(q.turns);
      assert HoldsAt(q, x, i, k);
    }
    forall k | 0 <= k < |q.turns[i].input|
      ensures q.turns[i].input[k].id in q.events
              && q.turns[i].input[k] == StoredOf(q.turns[i].input[k].id, q.events[q.turns[i].input[k].id])
    {
      HolderIsBatch(q, q.turns[i].input[k].id, i, k);
    }
  }

  /** Finishing marks exactly the events of the turn's stored input. */
  lemma FinishMarksItsInput(q: Queue, i: nat, skipped: bool, now: int, x: string)
    requires Conserved(q) && i < |q.turns| && q.turns[i].state == Executing && x in q.events
    ensures var q' := FinishTurn(q, i, skipped, now);
            if exists k: nat :: HoldsAt(q, x, i, k)
            then !Processed(q, x) && q'.events[x] == q.events[x].(processedAt := Some(now))
            else q'.events[x] == q.events[x]
  {
    InputIsBatch(q, i);
    if k: nat :| HoldsAt(q, x, i, k) { HolderIsBatch(q, x, i, k); }
  }

  // ----- what a failure does -----

  /** The k-th failure of a turn, k below five, puts it back with a delay of 15, 30, 60 or 120 seconds; the fifth retires it
      and asks the owner, unless the plan is over. Nothing else changes. */
  lemma FailEffect(q: Queue, i: nat, now: int)
    requires i < |q.turns| && 1 <= q.turns[i].attempts
    ensures var q', k := FailTurn(q, i, now), q.turns[i].attempts;
            && q'.events == q.events && |q'.turns| == |q.turns|
            && (forall j | 0 <= j < |q.turns| && j != i :: q'.turns[j] == q.turns[j])
            && (if k < 5
                then q'.turns[i] == q.turns[i].(state := Queued, nextAt := now + [15, 30, 60, 120][k - 1]) && q'.plans == q.plans
                else q'.turns[i] == q.turns[i].(state := Dead)
                     && q'.plans.Keys == q.plans.Keys
                     && forall p | p in q.plans :: q'.plans[p] ==
                          if p == q.turns[i].plan && q.plans[p] !in {Completed, Cancelled, Failed} then NeedsInput else q.plans[p])
  {
    var k := q.turns[i].attempts;
    if k < 5 {
      assert Pow2(0) == 1 && Pow2(1) == 2 && Pow2(2) == 4 && Pow2(3) == 8;
      assert k - 1 in {0, 1, 2, 3};
    }
  }

  // ----- what a claim takes -----

  predicate DueTurn(q: Queue, now: int, i: nat) { i < |q.turns| && q.turns[i].state == Queued && q.turns[i].nextAt <= now }

  /** While a turn is due, the first one is run again, and nothing else happens. */
  lemma DueTurnsComeFirst(q: Queue, now: int, limit: int, i: nat)
    requires Conserved(q) && DueTurn(q, now, i) && forall j: nat | j < i :: !DueTurn(q, now, j)
    ensures NextBatch(q, now, limit)
         == Ok((q.(turns := q.turns[i := q.turns[i].(state := Executing, attempts := q.turns[i].attempts + 1)]), Some(i)))
  {
    var due := FirstDue(q.turns, now, 0);
    FirstDueIsFirst(q, now, 0, i);
  }

  lemma {:induction false} FirstDueIsFirst(q: Queue, now: int, k: nat, i: nat)
    requires k <= i && DueTurn(q, now, i) && forall j: nat | j < i :: !DueTurn(q, now, j)
    ensures FirstDue(q.turns, now, k) == Some(i)
    decreases i - k
  {
    if k < i {
      assert !DueTurn(q, now, k);
      FirstDueIsFirst(q, now, k + 1, i);
    }
  }

  lemma NoneDue(q: Queue, now: int)
    ensures FirstDue(q.turns, now, 0).None? <==> forall i: nat :: !DueTurn(q, now, i)
  {
    var due := FirstDue(q.turns, now, 0);
    if due.Some? { assert DueTurn(q, now, due.value); }
  }

  /** An event that no turn has, whose window has closed. */
  predicate Ready(q: Queue, now: int, id: string) {
    id in q.events && q.events[id].batch.None? && q.events[id].processedAt.None? && q.events[id].readyAt <= now
  }

  predicate ReadyFor(q: Queue, now: int, p: PlanId, id: string) { Ready(q, now, id) && q.events[id].plan == p }

  predicate CameEarlier(q: Queue, a: string, b: string)
    requires a in q.events && b in q.events
  {
    var e, f := q.events[a], q.events[b];
    e.receivedAt < f.receivedAt || (e.receivedAt == f.receivedAt && Less(a, b))
  }

  /** No event's window closed before this one's. */
  ghost predicate ClosedFirst(q: Queue, now: int, first: string) {
    && Ready(q, now, first)
    && forall id | Ready(q, now, id) && id != first ::
         var e, f := q.events[first], q.events[id];
         e.readyAt < f.readyAt || (e.readyAt == f.readyAt && Less(first, id))
  }

  /** The first events of p to arrive, of those that are ready; short of a full page only when they are all. */
  ghost predicate FirstArrivals(q: Queue, now: int, p: PlanId, size: nat, ids: seq<string>) {
    && 1 <= |ids| <= size
    && (forall i | 0 <= i < |ids| :: ReadyFor(q, now, p, ids[i]))
    && (forall i, j | 0 <= i < j < |ids| :: CameEarlier(q, ids[i], ids[j]))
    && (forall x | ReadyFor(q, now, p, x) && x !in ids ::
          |ids| == size && forall i | 0 <= i < |ids| :: CameEarlier(q, ids[i], x))
  }

  lemma ReadyMeans(q: Queue, now: int)
    ensures forall id :: id in ReadyTimes(q, now) <==> Ready(q, now, id)
    ensures forall id | id in ReadyTimes(q, now) :: ReadyTimes(q, now)[id] == q.events[id].readyAt
  {
  }

  lemma ClaimMeans(q: Queue, p: PlanId, now: int)
    ensures forall id :: id in ClaimTimes(q, p, now) <==> ReadyFor(q, now, p, id)
    ensures forall x, y | x in ClaimTimes(q, p, now) && y in ClaimTimes(q, p, now) ::
              Ordering.Before(ClaimTimes(q, p, now), x, y) <==> CameEarlier(q, x, y)
  {
  }

  lemma LeastClosedFirst(q: Queue, now: int)
    requires ReadyTimes(q, now) != map[]
    ensures ClosedFirst(q, now, Least(ReadyTimes(q, now)))
  {
    ReadyMeans(q, now);
    var times := ReadyTimes(q, now);
    hide ReadyTimes;
    assert IsLeast(times, Least(times));
  }

  lemma SelectsArrivals(q: Queue, now: int, p: PlanId, size: nat)
    requires size >= 1 && exists id :: ReadyFor(q, now, p, id)
    ensures FirstArrivals(q, now, p, size, Select(ClaimTimes(q, p, now), size))
  {
    var times := ClaimTimes(q, p, now);
    var ids := Select(times, size);
    ClaimMeans(q, p, now);
    hide ClaimTimes, ReadyFor, CameEarlier, Ordering.Before;
    var some :| ReadyFor(q, now, p, some);
    assert some in times;
    SelectIsOrdered(times, size);
    hide Select;
    forall x | x in times && x !in ids ensures |ids| == size && forall i | 0 <= i < size :: Ordering.Before(times, ids[i], x) {
      SelectIsComplete(times, size, x);
    }
  }

  /** A new batch is of the plan whose window closed first, and is the first page of that plan's ready events in order
      of arrival: at most 100, and an event is left out only when the page is full and the event came after all of it. */
  lemma ClaimTakesTheFirstPage(q: Queue, now: int, limit: int)
    requires Conserved(q) && (forall i: nat :: !DueTurn(q, now, i)) && exists id :: Ready(q, now, id)
    ensures NextBatch(q, now, limit).Ok? && NextBatch(q, now, limit).value.1 == Some(|q.turns|)
    ensures var turn := NextBatch(q, now, limit).value.0.turns[|q.turns|];
            && (exists first :: ClosedFirst(q, now, first) && turn.plan == q.events[first].plan)
            && FirstArrivals(q, now, turn.plan, if limit < 1 then 1 else if limit > 100 then 100 else limit, turn.batch.ids)
  {
    NextBatchCases(q, now, limit);
    ReadyMeans(q, now);
    NoneDue(q, now);
    var id :| Ready(q, now, id);
    assert id in ReadyTimes(q, now);
    hide NextBatch, Select, Conserved, ClaimTimes, ReadyTimes, Ready, DueTurn, FirstArrivals;
    LeastClosedFirst(q, now);
    var first := Least(ReadyTimes(q, now));
    assert ReadyFor(q, now, q.events[first].plan, first);
    SelectsArrivals(q, now, q.events[first].plan, PageSize(limit));
  }
}
