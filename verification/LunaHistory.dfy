/** What the history of the queue shows: runs are bounded and spaced out, and claims wait for the window. */
module LunaHistory {
  import opened Basics
  import opened Tables
  import opened LunaQueue

  // ----- bounded retry -----

  /** How often a turn was started. */
  function RunsOf(log: seq<Entry>, turn: nat): nat {
    if log == [] then 0
    else RunsOf(log[..|log| - 1], turn)
         + (if log[|log| - 1].Started? && log[|log| - 1].turn == turn then 1 else 0)
  }

  function AllRuns(log: seq<Entry>): nat {
    if log == [] then 0 else AllRuns(log[..|log| - 1]) + (if log[|log| - 1].Started? then 1 else 0)
  }

  function SumAttempts(turns: seq<Turn>): nat {
    if turns == [] then 0 else SumAttempts(turns[..|turns| - 1]) + turns[|turns| - 1].attempts
  }

  lemma LogGrows(log: seq<Entry>, e: Entry, turn: nat)
    ensures RunsOf(log + [e], turn) == RunsOf(log, turn) + (if e.Started? && e.turn == turn then 1 else 0)
    ensures AllRuns(log + [e]) == AllRuns(log) + (if e.Started? then 1 else 0)
  {
    assert (log + [e])[..|log|] == log;
  }

  lemma {:induction false} SumUpdate(turns: seq<Turn>, i: nat, t: Turn)
    requires i < |turns|
    ensures SumAttempts(turns[i := t]) == SumAttempts(turns) - turns[i].attempts + t.attempts
    decreases |turns|
  {
    var n := |turns| - 1;
    if i == n {
      assert turns[i := t][..n] == turns[..n];
    } else {
      assert turns[i := t][..n] == turns[..n][i := t];
      SumUpdate(turns[..n], i, t);
    }
  }

  lemma SumAppend(turns: seq<Turn>, t: Turn)
    ensures SumAttempts(turns + [t]) == SumAttempts(turns) + t.attempts
  {
    assert (turns + [t])[..|turns|] == turns;
  }

  ghost predicate CountsOk(s: Sys) {
    && (forall t: nat :: RunsOf(s.log, t) == if t < |s.q.turns| then s.q.turns[t].attempts else 0)
    && AllRuns(s.log) == SumAttempts(s.q.turns)
  }

  /** Seconds between failure k and run k+1. */
  function Gap(k: nat): nat
    requires k >= 1
  {
    15 * Pow2(k - 1)
  }

  /** Every entry is about a run that happened; a turn that waits will wait out the gap of its last failure. */
  ghost predicate EntryOk(q: Queue, e: Entry) {
    match e
    case Arrived(_, _, _, _) => true
    case Started(t, r, _) => t < |q.turns| && 1 <= r <= q.turns[t].attempts
    case Broke(t, k, f) =>
      t < |q.turns| && 1 <= k <= q.turns[t].attempts
      && (q.turns[t].state == Queued && q.turns[t].attempts == k ==> q.turns[t].nextAt >= f + Gap(k))
      && (q.turns[t].state == Executing ==> k < q.turns[t].attempts)
  }

  ghost predicate SpacedPair(x: Entry, y: Entry) {
    x.Broke? && y.Started? && x.turn == y.turn && x.run >= 1 && y.run == x.run + 1 ==> y.at >= x.at + Gap(x.run)
  }

  ghost predicate Spaced(s: Sys) {
    && (forall i | 0 <= i < |s.log| :: EntryOk(s.q, s.log[i]))
    && (forall i, j | 0 <= i < |s.log| && 0 <= j < |s.log| :: SpacedPair(s.log[i], s.log[j]))
  }

  lemma BackoffIsGap(k: nat)
    requires 1 <= k < MAX_ATTEMPTS
    ensures Backoff(k) == Gap(k)
  {
    assert Pow2(0) == 1 && Pow2(1) == 2 && Pow2(2) == 4 && Pow2(3) == 8;
    assert k in {1, 2, 3, 4};
  }

  lemma CountsArrive(s: Sys, a: Action)
    requires a.Arrive? && CountsOk(s)
    ensures CountsOk(Step(s, a))
  {
    hide Enqueue;
    if Enqueue(s.q, a.id, a.plan, a.kind, a.payload, a.delay, s.clock).Ok? && a.id !in s.q.events {
      EnqueueEffect(s.q, a.id, a.plan, a.kind, a.payload, a.delay, s.clock);
      forall t: nat { LogGrows(s.log, Arrived(a.id, a.plan, a.delay, s.clock), t); }
    }
  }

  /** Starting a turn, new or again, adds one run to the log and one attempt to the turns. */
  lemma OneMoreRun(log: seq<Entry>, turns: seq<Turn>, turns': seq<Turn>, i: nat, at: int)
    requires forall t: nat :: RunsOf(log, t) == if t < |turns| then turns[t].attempts else 0
    requires AllRuns(log) == SumAttempts(turns)
    requires (i < |turns| == |turns'| && turns' == turns[i := turns'[i]] && turns'[i].attempts == turns[i].attempts + 1)
             || (i == |turns| && |turns'| == i + 1 && turns' == turns + [turns'[i]] && turns'[i].attempts == 1)
    ensures var log' := log + [Started(i, turns'[i].attempts, at)];
            && (forall t: nat :: RunsOf(log', t) == if t < |turns'| then turns'[t].attempts else 0)
            && AllRuns(log') == SumAttempts(turns')
  {
    forall t: nat { LogGrows(log, Started(i, turns'[i].attempts, at), t); }
    if i < |turns| { SumUpdate(turns, i, turns'[i]); } else { SumAppend(turns, turns'[i]); }
    hide RunsOf, AllRuns, SumAttempts;
  }

  lemma ClaimedTurns(q: Queue, now: int, limit: int)
    requires Conserved(q) && NextBatch(q, now, limit).Ok? && NextBatch(q, now, limit).value.1.Some?
    ensures var (q', got) := NextBatch(q, now, limit).value;
            var i := got.value;
            (i < |q.turns| == |q'.turns| && q'.turns == q.turns[i := q'.turns[i]] && q'.turns[i].attempts == q.turns[i].attempts + 1)
            || (i == |q.turns| && |q'.turns| == i + 1 && q'.turns == q.turns + [q'.turns[i]] && q'.turns[i].attempts == 1)
  {
    hide NextBatch, NextIds, ReadyTimes, Conserved, StoredOf;
    NextBatchCases(q, now, limit);
  }

  lemma CountsClaim(s: Sys, limit: int)
    requires Conserved(s.q) && CountsOk(s)
    ensures CountsOk(Step(s, Claim(limit)))
  {
    hide NextBatch, Conserved, RunsOf, AllRuns, SumAttempts;
    if s.busy.None? && NextBatch(s.q, s.clock, limit).Ok? && NextBatch(s.q, s.clock, limit).value.1.Some? {
      var (q, got) := NextBatch(s.q, s.clock, limit).value;
      ClaimedTurns(s.q, s.clock, limit);
      OneMoreRun(s.log, s.q.turns, q.turns, got.value, s.clock);
    }
  }

  lemma CountsEnd(s: Sys, a: Action)
    requires (a.Finish? || a.Fail?) && CountsOk(s) && BusyOk(s)
    ensures CountsOk(Step(s, a))
  {
    if s.busy.Some? {
      var i := s.busy.value;
      var turns' := Step(s, a).q.turns;
      SumUpdate(s.q.turns, i, turns'[i]);
      assert turns' == s.q.turns[i := turns'[i]];
      if a.Fail? {
        forall t: nat { LogGrows(s.log, Broke(i, s.q.turns[i].attempts, s.clock), t); }
      }
    }
  }

  lemma StepKeepsCounts(s: Sys, a: Action)
    requires Conserved(s.q) && BusyOk(s) && CountsOk(s)
    ensures CountsOk(Step(s, a))
  {
    match a
    case Arrive(_, _, _, _, _) => CountsArrive(s, a);
    case Claim(limit) => CountsClaim(s, limit);
    case Finish(_) => CountsEnd(s, a);
    case Fail => CountsEnd(s, a);
    case _ =>
  }

  /** Entries survive when turns only move forward, and a turn that waits or runs was left alone or started again. */
  lemma EntriesSurvive(q: Queue, q': Queue, e: Entry)
    requires EntryOk(q, e) && |q.turns| <= |q'.turns|
    requires forall t | 0 <= t < |q.turns| ::
               q'.turns[t] == q.turns[t]
               || (q'.turns[t].state == Executing && q'.turns[t].attempts > q.turns[t].attempts)
    ensures EntryOk(q', e)
  {
  }

  lemma SpacedArrive(s: Sys, a: Action)
    requires a.Arrive? && Spaced(s)
    ensures Spaced(Step(s, a))
  {
    hide Enqueue, Gap;
    if Enqueue(s.q, a.id, a.plan, a.kind, a.payload, a.delay, s.clock).Ok? && a.id !in s.q.events {
      EnqueueEffect(s.q, a.id, a.plan, a.kind, a.payload, a.delay, s.clock);
      var s' := Step(s, a);
      forall i | 0 <= i < |s'.log| ensures EntryOk(s'.q, s'.log[i]) {
        if i < |s.log| { EntriesSurvive(s.q, s'.q, s.log[i]); }
      }
    }
  }

  lemma SpacedClaim(s: Sys, limit: int)
    requires Conserved(s.q) && Spaced(s)
    ensures Spaced(Step(s, Claim(limit)))
  {
    hide NextBatch, NextIds, ReadyTimes, Conserved, Gap;
    NextBatchCases(s.q, s.clock, limit);
    var (q, got) := NextBatch(s.q, s.clock, limit).value;
    if s.busy.None? && got.Some? {
      ClaimedTurn(s, limit);
      var e := Started(got.value, q.turns[got.value].attempts, s.clock);
      forall i | 0 <= i < |s.log| ensures EntryOk(q, s.log[i]) && SpacedPair(s.log[i], e) && SpacedPair(e, s.log[i]) {
        assert EntryOk(s.q, s.log[i]);
        EntriesSurvive(s.q, q, s.log[i]);
      }
      LogExtends(s, Step(s, Claim(limit)), e);
    }
  }

  /** The turn a claim starts: a waiting turn whose back-off has passed, or a new one. */
  lemma ClaimedTurn(s: Sys, limit: int)
    requires Conserved(s.q) && NextBatch(s.q, s.clock, limit).Ok? && NextBatch(s.q, s.clock, limit).value.1.Some?
    ensures var (q, got) := NextBatch(s.q, s.clock, limit).value;
            var i := got.value;
            && |s.q.turns| <= |q.turns| && q.turns[i].state == Executing && q.turns[i].attempts >= 1
            && (forall t | 0 <= t < |s.q.turns| && t != i :: q.turns[t] == s.q.turns[t])
            && (i < |s.q.turns| ==> s.q.turns[i].state == Queued && s.q.turns[i].nextAt <= s.clock
                                    && q.turns[i].attempts == s.q.turns[i].attempts + 1)
  {
    hide NextBatch, NextIds, ReadyTimes, Conserved;
    NextBatchCases(s.q, s.clock, limit);
  }

  lemma LogExtends(s: Sys, s': Sys, e: Entry)
    requires Spaced(s) && s'.log == s.log + [e] && EntryOk(s'.q, e)
    requires forall i | 0 <= i < |s.log| :: EntryOk(s'.q, s.log[i]) && SpacedPair(s.log[i], e) && SpacedPair(e, s.log[i])
    ensures Spaced(s')
  {
    hide EntryOk;
    forall i, j | 0 <= i < |s'.log| && 0 <= j < |s'.log| ensures SpacedPair(s'.log[i], s'.log[j]) {
      if i < |s.log| && j < |s.log| { assert SpacedPair(s.log[i], s.log[j]); }
    }
  }

  lemma SpacedEnd(s: Sys, a: Action)
    requires (a.Finish? || a.Fail?) && Conserved(s.q) && BusyOk(s) && Spaced(s)
    ensures Spaced(Step(s, a))
  {
    hide Gap, Backoff, Conserved;
    if s.busy.Some? {
      var i, s' := s.busy.value, Step(s, a);
      forall j | 0 <= j < |s.log| ensures EntryOk(s'.q, s.log[j]) {
        assert EntryOk(s.q, s.log[j]);
      }
      if a.Fail? {
        var e := Broke(i, s.q.turns[i].attempts, s.clock);
        FailedTurn(s, i);
        forall j | 0 <= j < |s.log| ensures SpacedPair(e, s.log[j]) {
          assert EntryOk(s.q, s.log[j]);
        }
        LogExtends(s, s', e);
      }
    }
  }

  lemma FailedTurn(s: Sys, i: nat)
    requires Conserved(s.q) && i < |s.q.turns| && s.q.turns[i].state == Executing
    ensures EntryOk(FailTurn(s.q, i, s.clock), Broke(i, s.q.turns[i].attempts, s.clock))
  {
    assert AttemptsOk(s.q.turns[i]);
    if s.q.turns[i].attempts < MAX_ATTEMPTS { BackoffIsGap(s.q.turns[i].attempts); }
  }

  lemma StepKeepsSpaced(s: Sys, a: Action)
    requires Conserved(s.q) && BusyOk(s) && Spaced(s)
    ensures Spaced(Step(s, a))
  {
    match a
    case Arrive(_, _, _, _, _) => SpacedArrive(s, a);
    case Claim(limit) => SpacedClaim(s, limit);
    case Finish(_) => SpacedEnd(s, a);
    case Fail => SpacedEnd(s, a);
    case _ =>
      forall i | 0 <= i < |s.log| ensures EntryOk(Step(s, a).q, s.log[i]) {
        assert EntryOk(s.q, s.log[i]);
      }
  }

  lemma {:induction false} RunKeepsHistory(s: Sys, actions: seq<Action>)
    requires Conserved(s.q) && BusyOk(s) && CountsOk(s) && Spaced(s)
    ensures CountsOk(Run(s, actions)) && Spaced(Run(s, actions))
    decreases |actions|
  {
    hide Conserved, Step, CountsOk, Spaced;
    if actions != [] {
      StepKeeps(s, actions[0]);
      StepKeepsCounts(s, actions[0]);
      StepKeepsSpaced(s, actions[0]);
      RunKeepsHistory(Step(s, actions[0]), actions[1..]);
    }
  }

  /** The first event of every turn is its own: there are no more turns than events. */
  lemma {:induction false} FirstEvents(q: Queue, n: nat) returns (firsts: set<string>)
    requires Conserved(q) && n <= |q.turns|
    ensures |firsts| == n && firsts <= q.events.Keys
    ensures forall x | x in firsts :: exists i | 0 <= i < n :: q.events[x].batch == Some(q.turns[i].batch)
  {
    if n == 0 {
      firsts := {};
    } else {
      var before := FirstEvents(q, n - 1);
      assert TurnOk(q, q.turns[n - 1]);
      var x := q.turns[n - 1].batch.ids[0];
      assert q.events[x].batch == Some(q.turns[n - 1].batch);
      assert x !in before by { assert DistinctBatches(q.turns); }
      firsts := before + {x};
    }
  }

  lemma {:induction false} SumBounded(turns: seq<Turn>)
    requires forall i | 0 <= i < |turns| :: turns[i].attempts <= MAX_ATTEMPTS
    ensures SumAttempts(turns) <= MAX_ATTEMPTS * |turns|
  {
    if turns != [] { SumBounded(turns[..|turns| - 1]); }
  }

  lemma NoMoreTurnsThanEvents(q: Queue)
    requires Conserved(q)
    ensures |q.turns| <= |q.events|
  {
    var firsts := FirstEvents(q, |q.turns|);
    CardinalityBounded(firsts, q.events.Keys);
  }

  lemma {:induction false} CardinalityBounded(a: set<string>, b: set<string>)
    requires a <= b
    ensures |a| <= |b|
  {
    if a != {} {
      var x :| x in a;
      CardinalityBounded(a - {x}, b - {x});
    }
  }

  /** Over any history with crashes: a turn runs at most 5 times, all runs together at most 5 per accepted event,
      and run k+1 starts at least 15 * 2^(k-1) seconds after failure k. */
  lemma RetryIsBounded(start: int, actions: seq<Action>)
    ensures var s := Run(Initial(start), actions);
            && (forall t: nat :: RunsOf(s.log, t) <= 5)
            && AllRuns(s.log) <= 5 * |s.q.events|
            && (forall i, j | 0 <= i < |s.log| && 0 <= j < |s.log| && s.log[i].Broke? && s.log[j].Started?
                              && s.log[i].turn == s.log[j].turn && s.log[j].run == s.log[i].run + 1 ::
                  1 <= s.log[i].run && s.log[j].at >= s.log[i].at + 15 * Pow2(s.log[i].run - 1))
  {
    hide Run, Conserved;
    InitialConserved(start);
    RunKeeps(Initial(start), actions);
    RunKeepsHistory(Initial(start), actions);
    var s := Run(Initial(start), actions);
    NoMoreTurnsThanEvents(s.q);
    forall i | 0 <= i < |s.q.turns| ensures s.q.turns[i].attempts <= 5 { AttemptsBounded(s.q, i); }
    SumBounded(s.q.turns);
    forall i, j | 0 <= i < |s.log| && 0 <= j < |s.log| && s.log[i].Broke? && s.log[j].Started?
                  && s.log[i].turn == s.log[j].turn && s.log[j].run == s.log[i].run + 1
      ensures 1 <= s.log[i].run && s.log[j].at >= s.log[i].at + 15 * Pow2(s.log[i].run - 1)
    {
      assert EntryOk(s.q, s.log[i]) && SpacedPair(s.log[i], s.log[j]);
    }
  }

  lemma AttemptsBounded(q: Queue, i: nat)
    requires Conserved(q) && i < |q.turns|
    ensures q.turns[i].attempts <= MAX_ATTEMPTS
  {
    assert AttemptsOk(q.turns[i]);
  }

  /** Luna's own steps move a plan only when its turn fails for the fifth time, and never a terminal one. */
  lemma OnlyExhaustionMovesPlans(start: int, actions: seq<Action>, a: Action, p: PlanId)
    requires !a.SetPlan? && p in Run(Initial(start), actions).q.plans
    ensures var s := Run(Initial(start), actions);
            var s' := Step(s, a);
            && p in s'.q.plans
            && (s'.q.plans[p] != s.q.plans[p] ==>
                  && s'.q.plans[p] == NeedsInput && !Terminal(s.q.plans[p]) && a == Fail
                  && s.busy.Some? && s.busy.value < |s.q.turns|
                  && s.q.turns[s.busy.value].plan == p && RunsOf(s.log, s.busy.value) == 5)
  {
    hide Run, Conserved, NextBatch, NextIds, ReadyTimes;
    InitialConserved(start);
    RunKeeps(Initial(start), actions);
    RunKeepsHistory(Initial(start), actions);
    var s := Run(Initial(start), actions);
    if a.Claim? { NextBatchCases(s.q, s.clock, a.limit); }
    if a.Fail? && s.busy.Some? { AttemptsBounded(s.q, s.busy.value); }
  }
}
