/** luna.py: one pass of the reconciler over the event queue, with other threads in between. */
module LunaCoordinator {
  import opened Basics
  import opened Tables
  import opened LunaQueue
  import opened LunaStoreModel

  /** How Luna's conversation ends: a summary, an exception, or the process dies in it. */
  datatype Ending = Answered | Raised | Died

  /** The rest of the system: what it does after the claim and during the conversation, how that ends,
      and the follow-up event of a plan that can go on. */
  datatype World = World(afterClaim: seq<Action>, during: seq<Action>, ending: Ending, followUp: Option<Action>)

  /** Steps of other threads. */
  predicate ByOthers(a: Action) { a.Tick? || a.Arrive? || a.SetPlan? }

  ghost predicate Elsewhere(w: World) {
    && (forall a | a in w.afterClaim :: ByOthers(a))
    && (forall a | a in w.during :: ByOthers(a))
    && (w.followUp.Some? ==> w.followUp.value.Arrive? && w.followUp.value.delay == 0)
  }

  /** COORDINATED_STATES. */
  predicate Coordinated(s: PlanState) { s in {Accepted, Decomposed, Running, NeedsInput, Paused, Review, Failed} }

  predicate CompleteOf(turns: seq<Turn>, p: PlanId, i: nat) {
    i < |turns| && turns[i].plan == p && turns[i].state == Complete
  }

  /** luna_usage: the complete turns of a plan. */
  function Usage(turns: seq<Turn>, p: PlanId): nat {
    |set i | 0 <= i < |turns| && CompleteOf(turns, p, i)|
  }

  /** The trace is a run from s to t, sound at its end. */
  ghost predicate Explains(s: Sys, trace: seq<Action>, t: Sys) {
    Run(s, trace) == t && Conserved(t.q) && BusyOk(t)
  }

  lemma {:induction false} RunAppend(s: Sys, a: seq<Action>, b: seq<Action>)
    ensures Run(s, a + b) == Run(Run(s, a), b)
    decreases |a|
  {
    hide Step;
    if a == [] {
      assert a + b == b;
    } else {
      assert (a + b)[1..] == a[1..] + b;
      RunAppend(Step(s, a[0]), a[1..], b);
    }
  }

  lemma ExplainsMore(s: Sys, trace: seq<Action>, t: Sys, more: seq<Action>)
    requires Explains(s, trace, t)
    ensures Explains(s, trace + more, Run(t, more))
  {
    hide Run, Conserved;
    RunAppend(s, trace, more);
    RunKeeps(t, more);
  }

  lemma ExplainsStep(s: Sys, trace: seq<Action>, t: Sys, a: Action)
    requires Explains(s, trace, t)
    ensures Explains(s, trace + [a], Step(t, a))
  {
    hide Step, Conserved;
    ExplainsMore(s, trace, t, [a]);
    assert [a][1..] == [] && Run(t, [a]) == Run(Step(t, a), []);
  }

  lemma ExplainsNothing(s: Sys)
    requires Conserved(s.q) && BusyOk(s)
    ensures Explains(s, [], s)
  {
  }

  lemma ExplainsSound(s: Sys, trace: seq<Action>, t: Sys)
    requires Explains(s, trace, t)
    ensures Conserved(t.q) && BusyOk(t) && Run(s, trace) == t
  {
  }

  /** Other threads touch neither the turns nor what the reconciler is running. */
  lemma OthersStep(s: Sys, a: Action)
    requires ByOthers(a)
    ensures Step(s, a).busy == s.busy && Step(s, a).q.turns == s.q.turns
  {
    if a.Arrive? && Enqueue(s.q, a.id, a.plan, a.kind, a.payload, a.delay, s.clock).Ok? && a.id !in s.q.events {
      EnqueueEffect(s.q, a.id, a.plan, a.kind, a.payload, a.delay, s.clock);
      hide Enqueue;
    }
  }

  method OtherStep(store: LunaStore, ghost s: Sys, clock: int, a: Action) returns (clock': int)
    requires s.q == store.Contents() && s.clock == clock && ByOthers(a)
    modifies store
    ensures store.Contents() == Step(s, a).q && clock' == Step(s, a).clock
  {
    hide Enqueue, NextBatch, FinishTurn, FailTurn;
    clock' := clock;
    match a {
      case Tick(n) => clock' := clock + n;
      case Arrive(id, p, kind, payload, delay) =>
        var r := store.EnqueueCoordinatorEvent(id, p, kind, payload, delay, clock);
        Repeated(s.q, id, p, kind, payload, delay, clock);
      case SetPlan(p, st) => store.plans := store.plans[p := st];
      case _ =>
    }
  }

  lemma Repeated(q: Queue, id: string, p: PlanId, kind: string, payload: string, delay: int, now: int)
    ensures id in q.events ==> Enqueue(q, id, p, kind, payload, delay, now) == Ok(q)
  {
  }

  /** Anything other threads do, in order. */
  method Others(store: LunaStore, ghost s: Sys, clock: int, actions: seq<Action>) returns (clock': int)
    requires s.q == store.Contents() && s.clock == clock && forall a | a in actions :: ByOthers(a)
    modifies store
    ensures store.Contents() == Run(s, actions).q && clock' == Run(s, actions).clock
    ensures Run(s, actions).busy == s.busy && store.turns == old(store.turns)
  {
    hide Step;
    clock' := clock;
    ghost var t := s;
    for i := 0 to |actions|
      invariant Run(s, actions) == Run(t, actions[i..])
      invariant t.q == store.Contents() && t.clock == clock' && t.busy == s.busy && store.turns == old(store.turns)
    {
      assert actions[i] in actions && actions[i..][1..] == actions[i + 1..];
      OthersStep(t, actions[i]);
      clock' := OtherStep(store, t, clock', actions[i]);
      t := Step(t, actions[i]);
    }
    assert actions[|actions|..] == [];
  }

  /** The state after a pass: explained by a run, with nothing left running in this process. */
  ghost predicate Rested(s: Sys, trace: seq<Action>, t: Sys, q: Queue, clock: int) {
    Explains(s, trace, t) && t.q == q && t.clock == clock && t.busy == None
  }

  /** Luna is called for a claimed turn exactly when its plan is coordinated and below the cap. */
  predicate Calls(q: Queue, p: PlanId, cap: nat) {
    p in q.plans && Coordinated(q.plans[p]) && Usage(q.turns, p) < cap
  }

  /** How the conversation ends the turn. */
  function Closing(w: World): seq<Action> {
    match w.ending
    case Answered => [Finish(false)] + (if w.followUp.Some? then [w.followUp.value] else [])
    case Raised => [Fail]
    case Died => [Crash]
  }

  /** What a pass does with a turn it has claimed for p. */
  function TurnSteps(q: Queue, p: PlanId, cap: nat, w: World): seq<Action> {
    if p !in q.plans then [Crash]
    else if !Coordinated(q.plans[p]) then [Finish(true)]
    else if Calls(q, p, cap) then w.during + Closing(w)
    else [SetPlan(p, NeedsInput)] + [Finish(false)]
  }

  /** The state a claimed turn of p is left in: complete after an answer and at the cap, skipped when its plan is not
      coordinated, queued again after an exception unless that was its last run, and still running if the process died. */
  function EndState(q: Queue, p: PlanId, cap: nat, w: World, attempts: nat): TurnState {
    if p !in q.plans then Executing
    else if !Coordinated(q.plans[p]) then Skipped
    else if Usage(q.turns, p) >= cap || w.ending.Answered? then Complete
    else if w.ending.Died? then Executing
    else if attempts >= 5 then Dead else Queued
  }

  /** Turn i is left in this state; its plan, batch and input, and every other turn, are as they were. */
  ghost predicate LeftIn(turns: seq<Turn>, turns': seq<Turn>, i: nat, state: TurnState) {
    && |turns'| == |turns| && i < |turns|
    && turns'[i].state == state && turns'[i].plan == turns[i].plan
    && turns'[i].batch == turns[i].batch && turns'[i].input == turns[i].input
    && forall j | 0 <= j < |turns| && j != i :: turns'[j] == turns[j]
  }

  /** One turn more counts as complete, or none. */
  lemma UsageOfOne(turns: seq<Turn>, turns': seq<Turn>, i: nat, state: TurnState, p: PlanId)
    requires LeftIn(turns, turns', i, state) && turns[i].state == Executing
    ensures Usage(turns', p) == Usage(turns, p) + if state == Complete && turns[i].plan == p then 1 else 0
  {
    var a, b := set j | 0 <= j < |turns| && CompleteOf(turns, p, j), set j | 0 <= j < |turns'| && CompleteOf(turns', p, j);
    CompleteAfter(turns, turns', i, state, p);
    hide LeftIn, CompleteOf;
    assert b == if state == Complete && turns[i].plan == p then a + {i} else a;
  }

  lemma CompleteAfter(turns: seq<Turn>, turns': seq<Turn>, i: nat, state: TurnState, p: PlanId)
    requires LeftIn(turns, turns', i, state) && turns[i].state == Executing
    ensures |turns'| == |turns| && !CompleteOf(turns, p, i)
    ensures forall j: nat :: CompleteOf(turns', p, j) <==> CompleteOf(turns, p, j) || (j == i && state == Complete && turns[i].plan == p)
  {
  }

  lemma UsageAfter(turns: seq<Turn>, turns': seq<Turn>, i: nat)
    requires i < |turns| && i < |turns'| && LeftIn(turns, turns', i, turns'[i].state) && turns[i].state == Executing
    ensures forall p :: Usage(turns', p) == Usage(turns, p) + if p == turns[i].plan && turns'[i].state == Complete then 1 else 0
  {
    forall p ensures Usage(turns', p) == Usage(turns, p) + if p == turns[i].plan && turns'[i].state == Complete then 1 else 0 {
      UsageOfOne(turns, turns', i, turns'[i].state, p);
    }
  }

  lemma LeftState(turns: seq<Turn>, turns': seq<Turn>, i: nat, state: TurnState)
    requires LeftIn(turns, turns', i, state)
    ensures i < |turns| && i < |turns'| && turns'[i].state == state
  {
  }

  predicate Ends(a: Action) { a.Finish? || a == Fail || a == Crash }

  function EndedBy(a: Action, attempts: nat): TurnState
    requires Ends(a)
  {
    match a
    case Finish(skipped) => if skipped then Skipped else Complete
    case Fail => if attempts >= 5 then Dead else Queued
    case Crash => Executing
  }

  lemma ActionEnds(s: Sys, i: nat, a: Action)
    requires s.busy == Some(i) && BusyOk(s) && Ends(a)
    ensures LeftIn(s.q.turns, Step(s, a).q.turns, i, EndedBy(a, s.q.turns[i].attempts))
  {
  }

  /** The end of a turn: retire it, count a failure, or die. */
  method EndTurn(store: LunaStore, ghost s: Sys, ghost trace: seq<Action>, ghost t: Sys, clock: int, i: nat, a: Action)
    returns (ghost trace': seq<Action>, ghost t': Sys)
    requires Explains(s, trace, t) && t.q == store.Contents() && t.clock == clock && t.busy == Some(i)
    requires Ends(a)
    modifies store
    ensures Rested(s, trace', t', store.Contents(), clock) && trace' == trace + [a]
    ensures i < |t.q.turns| && LeftIn(t.q.turns, store.turns, i, EndedBy(a, t.q.turns[i].attempts))
    ensures a != Fail ==> store.plans == old(store.plans)
  {
    hide Conserved, Run, FinishTurn, FailTurn, LeftIn, EndedBy;
    ExplainsSound(s, trace, t);
    ActionEnds(t, i, a);
    trace', t' := trace + [a], Step(t, a);
    ExplainsStep(s, trace, t, a);
    hide Explains;
    if a.Finish? {
      var r := store.FinishLunaTurn(i, a.skipped, clock);
    } else if a == Fail {
      store.FailLunaTurn(i, clock);
    }
  }

  /** The plan's state is written, then the turn ends. */
  method StopAtCap(store: LunaStore, ghost s: Sys, ghost trace: seq<Action>, ghost t: Sys, clock: int, i: nat, p: PlanId)
    returns (ghost trace': seq<Action>, ghost t': Sys)
    requires Explains(s, trace, t) && t.q == store.Contents() && t.clock == clock && t.busy == Some(i)
    modifies store
    ensures Rested(s, trace', t', store.Contents(), clock) && trace' == trace + ([SetPlan(p, NeedsInput)] + [Finish(false)])
    ensures i < |t.q.turns| && LeftIn(t.q.turns, store.turns, i, Complete)
    ensures p in store.plans && store.plans[p] == NeedsInput
  {
    hide Conserved, Run, Explains, LeftIn;
    ExplainsStep(s, trace, t, SetPlan(p, NeedsInput));
    store.plans := store.plans[p := NeedsInput];
    trace', t' := EndTurn(store, s, trace + [SetPlan(p, NeedsInput)], Step(t, SetPlan(p, NeedsInput)), clock, i, Finish(false));
  }

  /** The call and what follows it. */
  method Converse(store: LunaStore, ghost s: Sys, ghost trace: seq<Action>, ghost t: Sys, clock: int, i: nat, w: World)
    returns (clock': int, ghost trace': seq<Action>, ghost t': Sys)
    requires Explains(s, trace, t) && t.q == store.Contents() && t.clock == clock && t.busy == Some(i) && Elsewhere(w)
    modifies store
    ensures Rested(s, trace', t', store.Contents(), clock') && trace' == trace + (w.during + Closing(w))
    ensures i < |t.q.turns|
    ensures LeftIn(t.q.turns, store.turns, i, match w.ending case Answered => Complete case Died => Executing
                                              case Raised => if t.q.turns[i].attempts >= 5 then Dead else Queued)
  {
    hide Conserved, Run, Explains, LeftIn;
    clock' := Others(store, t, clock, w.during);
    ExplainsMore(s, trace, t, w.during);
    trace', t' := trace + w.during, Run(t, w.during);
    var last := match w.ending case Answered => Finish(false) case Raised => Fail case Died => Crash;
    trace', t' := EndTurn(store, s, trace', t', clock', i, last);
    if w.ending == Answered && w.followUp.Some? {
      ExplainsStep(s, trace', t', w.followUp.value);
      OthersStep(t', w.followUp.value);
      clock' := OtherStep(store, t', clock', w.followUp.value);
      trace', t' := trace' + [w.followUp.value], Step(t', w.followUp.value);
    }
    assert trace' == trace + (w.during + Closing(w));
  }

  /** A claimed turn: skip it, stop at the cap, or call Luna. */
  method TakeTurn(store: LunaStore, ghost s: Sys, ghost trace: seq<Action>, ghost t: Sys, clock: int, i: nat, p: PlanId,
                  cap: nat, w: World)
    returns (called: bool, clock': int, ghost trace': seq<Action>, ghost t': Sys)
    requires Explains(s, trace, t) && t.q == store.Contents() && t.clock == clock && t.busy == Some(i) && Elsewhere(w)
    modifies store
    ensures Rested(s, trace', t', store.Contents(), clock') && trace' == trace + TurnSteps(t.q, p, cap, w)
    ensures called == Calls(t.q, p, cap)
    ensures i < |t.q.turns| && LeftIn(t.q.turns, store.turns, i, EndState(t.q, p, cap, w, t.q.turns[i].attempts))
  {
    hide Explains, Usage, Coordinated, Closing, LeftIn;
    clock', called := clock, false;
    if p !in store.plans {
      trace', t' := EndTurn(store, s, trace, t, clock', i, Crash);
    } else if !Coordinated(store.plans[p]) {
      trace', t' := EndTurn(store, s, trace, t, clock', i, Finish(true));
    } else if Usage(store.turns, p) >= cap {
      trace', t' := StopAtCap(store, s, trace, t, clock', i, p);
    } else {
      clock', trace', t' := Converse(store, s, trace, t, clock, i, w);
      called := true;
    }
  }

  /** reconcile_once. Without a claim nothing happens. Otherwise the claimed turn's plan is looked at after other threads
      moved, the turn meets the end its plan calls for, and Luna is called, for that plan, exactly when it is in a
      coordinated state and its complete turns are below the cap. */
  method ReconcileOnce(store: LunaStore, ghost s: Sys, clock: int, cap: nat, w: World)
    returns (called: Option<PlanId>, clock': int, ghost trace: seq<Action>, ghost t: Sys)
    requires Conserved(s.q) && s.busy == None && s.q == store.Contents() && s.clock == clock && Elsewhere(w)
    modifies store
    ensures Rested(s, trace, t, store.Contents(), clock')
    ensures NextBatch(s.q, clock, 50).Ok?
    ensures NextBatch(s.q, clock, 50).value.1.None? ==>
              called == None && trace == [] && store.Contents() == old(store.Contents())
    ensures NextBatch(s.q, clock, 50).value.1.Some? ==>
              var i := NextBatch(s.q, clock, 50).value.1.value;
              var q := Run(s, [Claim(50)] + w.afterClaim).q;
              && i < |q.turns|
              && called == (if Calls(q, q.turns[i].plan, cap) then Some(q.turns[i].plan) else None)
              && trace == [Claim(50)] + w.afterClaim + TurnSteps(q, q.turns[i].plan, cap, w) == PassSteps(s, cap, w)
              && (called.Some? ==> Usage(old(store.turns), called.value) < cap)
              && LeftIn(q.turns, store.turns, i, EndState(q, q.turns[i].plan, cap, w, q.turns[i].attempts))
              && forall p :: Usage(store.turns, p)
                             == Usage(old(store.turns), p) + if p == q.turns[i].plan && store.turns[i].state == Complete then 1 else 0
  {
    hide Conserved, Run, Explains, Usage, NextBatch, NextIds, Coordinated, Closing, LeftIn, EndState;
    clock', trace, t := clock, [], s;
    ExplainsNothing(s);
    ClaimStepKeeps(s.q, clock, 50);
    ClaimKeepsUsage(s.q, clock, 50);
    var r := store.NextLunaBatch(clock, 50);
    if r.value.None? {
      NoClaim(s.q, clock, 50);
      return None, clock', trace, t;
    }
    var i := r.value.value.0;
    trace, t := [Claim(50)], Step(s, Claim(50));
    ExplainsStep(s, [], s, Claim(50));
    assert [] + [Claim(50)] == [Claim(50)];
    clock' := Others(store, t, clock', w.afterClaim);
    ExplainsMore(s, trace, t, w.afterClaim);
    trace, t := trace + w.afterClaim, Run(t, w.afterClaim);
    ExplainsSound(s, trace, t);
    var p := store.turns[i].plan;
    ghost var turns, t1 := store.turns, t;
    var called';
    called', clock', trace, t := TakeTurn(store, s, trace, t, clock', i, p, cap, w);
    called := if called' then Some(p) else None;
    LeftState(turns, store.turns, i, EndState(t1.q, p, cap, w, turns[i].attempts));
    UsageAfter(turns, store.turns, i);
  }

  lemma NoClaim(q: Queue, now: int, limit: int)
    requires Conserved(q) && NextBatch(q, now, limit).Ok? && NextBatch(q, now, limit).value.1.None?
    ensures NextBatch(q, now, limit).value.0 == q
  {
    NextBatchCases(q, now, limit);
  }

  /** A claim completes no turn. */
  lemma ClaimKeepsUsage(q: Queue, now: int, limit: int)
    requires Conserved(q)
    ensures NextBatch(q, now, limit).Ok? && forall p :: Usage(NextBatch(q, now, limit).value.0.turns, p) == Usage(q.turns, p)
  {
    hide NextBatch, NextIds, ReadyTimes, Conserved;
    NextBatchCases(q, now, limit);
    var turns' := NextBatch(q, now, limit).value.0.turns;
    forall p ensures Usage(turns', p) == Usage(q.turns, p) {
      forall i: nat ensures CompleteOf(turns', p, i) <==> CompleteOf(q.turns, p, i) {}
      assert (set i | 0 <= i < |turns'| && CompleteOf(turns', p, i)) == (set i | 0 <= i < |q.turns| && CompleteOf(q.turns, p, i));
    }
  }

  // ----- the cap over whole runs -----

  /** The steps of one pass from s. */
  ghost function PassSteps(s: Sys, cap: nat, w: World): seq<Action> {
    var claim := NextBatch(s.q, s.clock, 50);
    if claim.Err? || claim.value.1.None? then []
    else
      var q := Run(s, [Claim(50)] + w.afterClaim).q;
      if claim.value.1.value >= |q.turns| then [] else [Claim(50)] + w.afterClaim + TurnSteps(q, q.turns[claim.value.1.value].plan, cap, w)
  }

  /** In that pass Luna is called for p and answers. */
  ghost predicate AnswersFor(s: Sys, cap: nat, w: World, p: PlanId) {
    var claim := NextBatch(s.q, s.clock, 50);
    && claim.Ok? && claim.value.1.Some?
    && var q := Run(s, [Claim(50)] + w.afterClaim).q;
       claim.value.1.value < |q.turns| && q.turns[claim.value.1.value].plan == p && Calls(q, p, cap) && w.ending.Answered?
  }

  lemma RunOne(s: Sys, a: Action)
    ensures Run(s, [a]) == Step(s, a)
  {
    hide Step;
    assert [a][1..] == [] && Run(s, [a]) == Run(Step(s, a), []);
  }

  lemma {:induction false} OthersRun(s: Sys, actions: seq<Action>)
    requires forall a | a in actions :: ByOthers(a)
    ensures Run(s, actions).busy == s.busy && Run(s, actions).q.turns == s.q.turns
    decreases |actions|
  {
    hide Step;
    if actions != [] {
      assert actions[0] in actions;
      OthersStep(s, actions[0]);
      OthersRun(Step(s, actions[0]), actions[1..]);
    }
  }

  lemma Sound(s: Sys, actions: seq<Action>)
    requires Conserved(s.q) && BusyOk(s)
    ensures Conserved(Run(s, actions).q) && BusyOk(Run(s, actions))
  {
    RunKeeps(s, actions);
  }

  /** The last action of a turn after what others do. */
  lemma EndUsage(t: Sys, others: seq<Action>, i: nat, a: Action)
    requires Conserved(t.q) && BusyOk(t) && t.busy == Some(i) && Ends(a) && forall x | x in others :: ByOthers(x)
    ensures var u := Run(t, others + [a]);
            u.busy == None && LeftIn(t.q.turns, u.q.turns, i, EndedBy(a, t.q.turns[i].attempts))
  {
    hide Run, Step, Conserved, LeftIn, EndedBy;
    OthersRun(t, others);
    Sound(t, others);
    RunAppend(t, others, [a]);
    RunOne(Run(t, others), a);
    ActionEnds(Run(t, others), i, a);
    Freed(Run(t, others), a);
  }

  lemma Freed(s: Sys, a: Action)
    requires BusyOk(s) && s.busy.Some? && Ends(a)
    ensures Step(s, a).busy == None
  {
  }

  /** A claimed turn ends as EndState says. */
  lemma TurnUsage(t: Sys, i: nat, p: PlanId, cap: nat, w: World)
    requires Conserved(t.q) && BusyOk(t) && t.busy == Some(i) && Elsewhere(w)
    ensures var u := Run(t, TurnSteps(t.q, p, cap, w));
            u.busy == None && LeftIn(t.q.turns, u.q.turns, i, EndState(t.q, p, cap, w, t.q.turns[i].attempts))
  {
    hide Run, Conserved, LeftIn, Usage, Coordinated;
    if p !in t.q.plans {
      EndUsage(t, [], i, Crash);
      assert [] + [Action.Crash] == [Action.Crash];
    } else if !Coordinated(t.q.plans[p]) {
      EndUsage(t, [], i, Finish(true));
      assert [] + [Finish(true)] == [Finish(true)];
    } else if !Calls(t.q, p, cap) {
      EndUsage(t, [SetPlan(p, NeedsInput)], i, Finish(false));
    } else {
      var last := match w.ending case Answered => Finish(false) case Raised => Fail case Died => Crash;
      EndUsage(t, w.during, i, last);
      if w.ending.Answered? && w.followUp.Some? {
        var u := Run(t, w.during + [last]);
        RunAppend(t, w.during + [last], [w.followUp.value]);
        OthersRun(u, [w.followUp.value]);
        assert w.during + [last] + [w.followUp.value] == w.during + Closing(w);
      } else {
        assert Closing(w) == [last];
      }
    }
  }

  /** A pass never lowers the count of complete turns; an answered call, made below the cap, raises it by one. */
  lemma PassUsage(s: Sys, cap: nat, w: World, p: PlanId)
    requires Conserved(s.q) && s.busy == None && Elsewhere(w)
    ensures var t := Run(s, PassSteps(s, cap, w));
            && Conserved(t.q) && t.busy == None
            && Usage(t.q.turns, p) >= Usage(s.q.turns, p) + (if AnswersFor(s, cap, w, p) then 1 else 0)
            && (AnswersFor(s, cap, w, p) ==> Usage(s.q.turns, p) < cap)
  {
    hide Run, Conserved, LeftIn, Usage, Coordinated, NextBatch, TurnSteps;
    Sound(s, PassSteps(s, cap, w));
    ClaimStepKeeps(s.q, s.clock, 50);
    ClaimKeepsUsage(s.q, s.clock, 50);
    var claim := NextBatch(s.q, s.clock, 50).value.1;
    if claim.Some? {
      var i := claim.value;
      RunAppend(s, [Claim(50)], w.afterClaim);
      RunOne(s, Claim(50));
      var t := Run(s, [Claim(50)] + w.afterClaim);
      OthersRun(Step(s, Claim(50)), w.afterClaim);
      Sound(s, [Claim(50)] + w.afterClaim);
      TurnUsage(t, i, t.q.turns[i].plan, cap, w);
      RunAppend(s, [Claim(50)] + w.afterClaim, TurnSteps(t.q, t.q.turns[i].plan, cap, w));
      var u := Run(s, PassSteps(s, cap, w));
      LeftState(t.q.turns, u.q.turns, i, EndState(t.q, t.q.turns[i].plan, cap, w, t.q.turns[i].attempts));
      UsageOfOne(t.q.turns, u.q.turns, i, u.q.turns[i].state, p);
    } else {
      RunNothing(s);
    }
  }

  lemma RunNothing(s: Sys)
    ensures Run(s, []) == s
  {
  }

  /** One pass of the reconciler, after what other threads did since the last. */
  datatype Pass = Pass(before: seq<Action>, world: World)

  ghost predicate Passable(passes: seq<Pass>) {
    forall x | x in passes :: Elsewhere(x.world) && forall a | a in x.before :: ByOthers(a)
  }

  ghost function AfterPass(s: Sys, cap: nat, pass: Pass): Sys {
    var s1 := Run(s, pass.before);
    Run(s1, PassSteps(s1, cap, pass.world))
  }

  /** How many of the passes call Luna for p and get an answer. */
  ghost function Answers(s: Sys, cap: nat, passes: seq<Pass>, p: PlanId): nat
    decreases |passes|
  {
    if passes == [] then 0
    else (if AnswersFor(Run(s, passes[0].before), cap, passes[0].world, p) then 1 else 0)
         + Answers(AfterPass(s, cap, passes[0]), cap, passes[1..], p)
  }

  lemma {:induction false} CallsAreCounted(s: Sys, cap: nat, passes: seq<Pass>, p: PlanId)
    requires Conserved(s.q) && s.busy == None && Passable(passes)
    ensures Answers(s, cap, passes, p) > 0 ==> Usage(s.q.turns, p) + Answers(s, cap, passes, p) <= cap
    decreases |passes|
  {
    hide Run, Conserved, Usage, AnswersFor, PassSteps;
    if passes != [] {
      assert passes[0] in passes;
      var s1 := Run(s, passes[0].before);
      OthersRun(s, passes[0].before);
      Sound(s, passes[0].before);
      PassUsage(s1, cap, passes[0].world, p);
      CallsAreCounted(AfterPass(s, cap, passes[0]), cap, passes[1..], p);
    }
  }

  /** Over any run from the start, whatever other threads do, Luna answers for one plan at most as often as the cap. */
  lemma AnswersAreCapped(start: int, cap: nat, passes: seq<Pass>, p: PlanId)
    requires Passable(passes)
    ensures Answers(Initial(start), cap, passes, p) <= cap
  {
    hide Conserved;
    InitialConserved(start);
    CallsAreCounted(Initial(start), cap, passes, p);
  }
}
