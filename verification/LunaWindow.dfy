/** The quiet window: what a claim has waited for. */
module LunaWindow {
  import opened Basics
  import opened Tables
  import opened Ordering
  import opened LunaQueue

  /** An accepted event of the plan that asked for a delay restarts the plan's window. */
  predicate Delays(e: Entry, p: PlanId) { e.Arrived? && e.plan == p && e.delay > 0 }

  /** When the event recorded at k becomes due: after the last delaying arrival of its plan from k on,
      or straight away if there is none. */
  function Due(log: seq<Entry>, p: PlanId, k: nat): int
    requires k < |log| && log[k].Arrived?
    decreases |log|
  {
    var last := |log| - 1;
    if Delays(log[last], p) then log[last].at + log[last].delay
    else if last == k then log[k].at
    else Due(log[..last], p, k)
  }

  predicate EntriesInOrder(s: Sys) {
    && (forall i | 0 <= i < |s.log| :: s.log[i].at <= s.clock)
    && (forall i, j | 0 <= i < j < |s.log| :: s.log[i].at <= s.log[j].at)
  }

  /** The event's arrival is on record, and while it waits it becomes due when its window closes. */
  ghost predicate Recorded(s: Sys, id: string)
    requires id in s.q.events
  {
    var e := s.q.events[id];
    && id in s.arrival && s.arrival[id] < |s.log|
    && s.log[s.arrival[id]].Arrived?
    && (Waiting(e) ==> e.readyAt == Due(s.log, e.plan, s.arrival[id]))
    && var a := s.log[s.arrival[id]];
       a.id == id && a.plan == e.plan && a.at == e.receivedAt
  }

  ghost predicate Windowed(s: Sys) {
    && EntriesInOrder(s)
    && (forall id | id in s.q.events :: Recorded(s, id))
  }

  lemma DueAppend(log: seq<Entry>, e: Entry, p: PlanId, k: nat)
    requires k < |log| && log[k].Arrived?
    ensures Due(log + [e], p, k) == if Delays(e, p) then e.at + e.delay else Due(log, p, k)
  {
    assert (log + [e])[..|log|] == log;
  }

  /** Events that keep their claim and due time stay on record when an entry without a delay is added. */
  lemma StillRecorded(s: Sys, s': Sys, id: string)
    requires id in s.q.events && Recorded(s, id) && id in s'.q.events && s'.arrival == s.arrival
    requires s'.log == s.log || exists e :: s'.log == s.log + [e] && !e.Arrived?
    requires var (e, e') := (s.q.events[id], s'.q.events[id]);
             e'.plan == e.plan && e'.receivedAt == e.receivedAt && (Waiting(e') ==> Waiting(e) && e'.readyAt == e.readyAt)
    ensures Recorded(s', id)
  {
    if s'.log != s.log {
      var e :| s'.log == s.log + [e] && !e.Arrived?;
      DueAppend(s.log, e, s.q.events[id].plan, s.arrival[id]);
    }
  }

  lemma ArriveKeepsOne(s: Sys, a: Action, x: string)
    requires a.Arrive? && Windowed(s)
    requires Enqueue(s.q, a.id, a.plan, a.kind, a.payload, a.delay, s.clock).Ok? && a.id !in s.q.events
    requires x in Step(s, a).q.events
    ensures Recorded(Step(s, a), x)
  {
    hide Enqueue, EntriesInOrder;
    EnqueueEffect(s.q, a.id, a.plan, a.kind, a.payload, a.delay, s.clock);
    if x in s.q.events {
      assert Recorded(s, x);
      DueAppend(s.log, Arrived(a.id, a.plan, a.delay, s.clock), s.q.events[x].plan, s.arrival[x]);
    }
  }

  lemma ClaimKeepsWindow(s: Sys, limit: int)
    requires Conserved(s.q) && Windowed(s)
    ensures Windowed(Step(s, Claim(limit)))
  {
    hide Conserved, NextBatch, Recorded, ReadyTimes, NextIds;
    NextBatchCases(s.q, s.clock, limit);
    var s' := Step(s, Claim(limit));
    assert s'.log == s.log || exists e :: s'.log == s.log + [e] && !e.Arrived?;
    forall x | x in s'.q.events ensures Recorded(s', x) { StillRecorded(s, s', x); }
  }

  lemma StepKeepsWindow(s: Sys, a: Action)
    requires Conserved(s.q) && BusyOk(s) && Windowed(s)
    ensures Windowed(Step(s, a))
  {
    hide Conserved, NextBatch, Enqueue, Recorded, ReadyTimes, NextIds;
    match a
    case Arrive(id, p, kind, payload, delay) =>
      forall x | x in Step(s, a).q.events ensures Recorded(Step(s, a), x) {
        if Enqueue(s.q, id, p, kind, payload, delay, s.clock).Ok? && id !in s.q.events {
          ArriveKeepsOne(s, a, x);
        } else {
          StillRecorded(s, Step(s, a), x);
        }
      }
    case Claim(limit) => ClaimKeepsWindow(s, limit);
    case _ =>
      forall x | x in Step(s, a).q.events ensures Recorded(Step(s, a), x) {
        StillRecorded(s, Step(s, a), x);
      }
  }

  lemma {:induction false} RunKeepsWindow(s: Sys, actions: seq<Action>)
    requires Conserved(s.q) && BusyOk(s) && Windowed(s)
    ensures Windowed(Run(s, actions))
    decreases |actions|
  {
    hide Conserved, Step, Windowed;
    if actions != [] {
      StepKeeps(s, actions[0]);
      StepKeepsWindow(s, actions[0]);
      RunKeepsWindow(Step(s, actions[0]), actions[1..]);
    }
  }

  lemma Reachable(start: int, actions: seq<Action>)
    ensures var s := Run(Initial(start), actions); Conserved(s.q) && BusyOk(s) && Windowed(s)
  {
    hide Run, Conserved;
    InitialConserved(start);
    RunKeeps(Initial(start), actions);
    RunKeepsWindow(Initial(start), actions);
  }

  /** When a log is in order and every delaying arrival of the plan asks for the same delay, Due is past all of them. */
  lemma {:induction false} DueCoversWindow(log: seq<Entry>, p: PlanId, k: nat, window: nat, j: nat)
    requires k < |log| && log[k].Arrived? && k <= j < |log| && Delays(log[j], p)
    requires forall i, j | 0 <= i < j < |log| :: log[i].at <= log[j].at
    requires forall i | 0 <= i < |log| && Delays(log[i], p) :: log[i].delay == window
    ensures Due(log, p, k) >= log[j].at + window
    decreases |log|
  {
    var last := |log| - 1;
    if !Delays(log[last], p) {
      DueCoversWindow(log[..last], p, k, window, j);
    }
  }

  /** A claim that starts a new turn takes only events whose window has closed, all of one plan. */
  lemma ClaimWaitsForWindow(start: int, actions: seq<Action>, limit: int, id: string)
    ensures var s := Run(Initial(start), actions);
            && NextBatch(s.q, s.clock, limit).Ok?
            && var (q', got) := NextBatch(s.q, s.clock, limit).value;
               id in s.q.events && s.q.events[id].batch.None? && id in q'.events && q'.events[id].batch.Some? ==>
                 && got == Some(|s.q.turns|) && q'.turns[got.value].plan == s.q.events[id].plan
                 && id in s.arrival && s.arrival[id] < |s.log| && s.log[s.arrival[id]].Arrived? && s.log[s.arrival[id]].id == id
                 && Due(s.log, s.q.events[id].plan, s.arrival[id]) <= s.clock
  {
    hide Run, Conserved, NextBatch;
    Reachable(start, actions);
    var s := Run(Initial(start), actions);
    NextBatchCases(s.q, s.clock, limit);
    if id in s.q.events { assert Recorded(s, id); }
  }

  /** With a fixed window, every delaying event of the plan accepted between the claimed event's arrival and the claim
      was accepted at least a window before the claim. */
  lemma ClaimIsQuiet(start: int, actions: seq<Action>, limit: int, id: string, window: nat, j: nat)
    requires var s := Run(Initial(start), actions);
             && NextBatch(s.q, s.clock, limit).Ok?
             && id in s.q.events && s.q.events[id].batch.None?
             && id in NextBatch(s.q, s.clock, limit).value.0.events
             && NextBatch(s.q, s.clock, limit).value.0.events[id].batch.Some?
             && (forall i | 0 <= i < |s.log| && Delays(s.log[i], s.q.events[id].plan) :: s.log[i].delay == window)
             && j < |s.log| && Delays(s.log[j], s.q.events[id].plan)
    ensures var s := Run(Initial(start), actions);
            && id in s.arrival && s.arrival[id] < |s.log| && s.log[s.arrival[id]].Arrived? && s.log[s.arrival[id]].id == id
            && (j >= s.arrival[id] ==> s.log[j].at + window <= s.clock)
  {
    hide Run, Conserved, NextBatch;
    Reachable(start, actions);
    ClaimWaitsForWindow(start, actions, limit, id);
    var s := Run(Initial(start), actions);
    if j >= s.arrival[id] { DueCoversWindow(s.log, s.q.events[id].plan, s.arrival[id], window, j); }
  }

  /** A claim comes back empty exactly when no turn is due and no waiting event's window has closed. */
  lemma NothingDueIsOverlooked(start: int, actions: seq<Action>, limit: int)
    ensures var s := Run(Initial(start), actions);
            && (forall id | id in s.q.events :: id in s.arrival && s.arrival[id] < |s.log| && s.log[s.arrival[id]].Arrived?)
            && NextBatch(s.q, s.clock, limit).Ok?
            && (NextBatch(s.q, s.clock, limit).value.1 == None <==>
                  && (forall i | 0 <= i < |s.q.turns| :: !(s.q.turns[i].state == Queued && s.q.turns[i].nextAt <= s.clock))
                  && (forall id | id in s.q.events && Waiting(s.q.events[id]) ::
                        Due(s.log, s.q.events[id].plan, s.arrival[id]) > s.clock))
  {
    hide Run, Conserved, NextBatch, NextIds;
    Reachable(start, actions);
    var s := Run(Initial(start), actions);
    NextBatchCases(s.q, s.clock, limit);
    forall id | id in s.q.events
      ensures id in s.arrival && s.arrival[id] < |s.log| && s.log[s.arrival[id]].Arrived?
              && (Waiting(s.q.events[id]) ==> s.q.events[id].readyAt == Due(s.log, s.q.events[id].plan, s.arrival[id]))
    {
      assert Recorded(s, id);
    }
    if id :| id in s.q.events && Waiting(s.q.events[id]) && s.q.events[id].readyAt <= s.clock {
      assert id in ReadyTimes(s.q, s.clock);
    } else {
      assert forall id | id in s.q.events && Waiting(s.q.events[id]) :: s.q.events[id].readyAt > s.clock;
      assert ReadyTimes(s.q, s.clock) == map[];
    }
  }
}
