/** The event queue and turn tables as the object the gateway updates in place. */
module LunaStoreModel {
  import opened Basics
  import opened Tables
  import opened Ordering
  import opened LunaQueue

  class LunaStore {
    var plans: map<PlanId, PlanState>
    var events: map<string, Event>
    var turns: seq<Turn>

    function Contents(): Queue
      reads this
    {
      Queue(plans, events, turns)
    }

    constructor ()
      ensures Contents() == Queue(map[], map[], [])
    {
      plans, events, turns := map[], map[], [];
    }

    /** A second arrival of an id is ignored and leaves the window alone. */
    method EnqueueCoordinatorEvent(id: string, p: PlanId, kind: string, payload: string, delay: int, now: int)
      returns (r: Result<bool, Refusal>)
      modifies this`events
      ensures match Enqueue(old(Contents()), id, p, kind, payload, delay, now)
              case Ok(q) => Contents() == q && r == Ok(id !in old(events))
              case Err(e) => Contents() == old(Contents()) && r == Err(e)
    {
      if id in events {
        return Ok(false);
      }
      if p !in plans {
        return Err(ForeignKeyViolation);
      }
      events := events[id := Event(p, kind, payload, now, now + Max0(delay), None, None)];
      if delay > 0 {
        events := map x | x in events ::
          if events[x].plan == p && Waiting(events[x]) then events[x].(readyAt := now + delay) else events[x];
      }
      r := Ok(true);
    }

    method FindDueTurn(now: int) returns (due: Option<nat>)
      ensures due == FirstDue(turns, now, 0)
    {
      var i := 0;
      while i < |turns|
        invariant 0 <= i <= |turns| && FirstDue(turns, now, 0) == FirstDue(turns, now, i)
      {
        if turns[i].state == Queued && turns[i].nextAt <= now {
          return Some(i);
        }
        i := i + 1;
      }
      due := None;
    }

    /** The ids of the batch to claim, if any event is ready. */
    method PickBatch(now: int, limit: int) returns (ids: seq<string>)
      ensures ReadyTimes(Contents(), now) == map[] ==> ids == []
      ensures ReadyTimes(Contents(), now) != map[] ==> ids == NextIds(Contents(), now, limit)
    {
      var ready := ReadyTimes(Contents(), now);
      if ready == map[] {
        return [];
      }
      var first := FindLeast(ready);
      LeastUnique(ready, first, Least(ready));
      ids := FirstRows(ClaimTimes(Contents(), events[first].plan, now), PageSize(limit));
    }

    /** Index of the turn handed to Luna, with its stored input. */
    method NextLunaBatch(now: int, limit: int) returns (r: Result<Option<(nat, seq<Stored>)>, Refusal>)
      modifies this`events, this`turns
      ensures match NextBatch(old(Contents()), now, limit)
              case Ok((q, got)) =>
                Contents() == q
                && r == Ok(if got.Some? then Some((got.value, q.turns[got.value].input)) else None)
              case Err(e) => Contents() == old(Contents()) && r == Err(e)
    {
      var due := FindDueTurn(now);
      if due.Some? {
        var i := due.value;
        turns := turns[i := turns[i].(state := Executing, attempts := turns[i].attempts + 1)];
        return Ok(Some((i, turns[i].input)));
      }
      var ids := PickBatch(now, limit);
      if ids == [] {
        return Ok(None);
      }
      if exists i | 0 <= i < |turns| :: turns[i].batch == BatchId(ids) {
        return Err(UniqueViolation);
      }
      var p, input := events[ids[0]].plan, InputOf(Contents(), ids);
      events := map x | x in events :: if x in ids then events[x].(batch := Some(BatchId(ids))) else events[x];
      turns := turns + [Turn(p, BatchId(ids), input, Executing, 1, 0)];
      r := Ok(Some((|turns| - 1, input)));
    }

    method FinishLunaTurn(i: nat, skipped: bool, now: int) returns (r: Result<(), Refusal>)
      modifies this`events, this`turns
      ensures i < |old(turns)| ==> r.Ok? && Contents() == FinishTurn(old(Contents()), i, skipped, now)
      ensures i < |old(turns)| ==> turns[i].state == if skipped then Skipped else Complete
      ensures i >= |old(turns)| ==> r == Err(UnknownTurn) && Contents() == old(Contents())
    {
      if i >= |turns| {
        return Err(UnknownTurn);
      }
      var b := turns[i].batch;
      turns := turns[i := turns[i].(state := if skipped then Skipped else Complete)];
      events := map x | x in events :: if events[x].batch == Some(b) then events[x].(processedAt := Some(now)) else events[x];
      r := Ok(());
    }

    method FailLunaTurn(i: nat, now: int)
      modifies this`plans, this`turns
      ensures Contents() == if i < |old(turns)| then FailTurn(old(Contents()), i, now) else old(Contents())
    {
      if i >= |turns| {
        return;
      }
      var p, attempts := turns[i].plan, turns[i].attempts;
      if attempts >= MAX_ATTEMPTS {
        turns := turns[i := turns[i].(state := Dead)];
        if p in plans && !Terminal(plans[p]) {
          plans := plans[p := NeedsInput];
        }
      } else {
        turns := turns[i := turns[i].(state := Queued, nextAt := now + Backoff(attempts))];
      }
    }
  }
}
