/** The bot's side of the outbox as it is written: retries, pins, one pass over a poll. */
module MatrixBot {
  import opened Basics
  import opened Ordering
  import opened Outbox

  // ----- waiting out the rate limiter -----

  /** How one Matrix write ends; a refusal by the rate limiter may say for how many milliseconds. */
  datatype Reply = Accepted | UnknownEvent | Limited(retryAfter: Option<nat>) | Failed

  const RATE_LIMIT_ATTEMPTS := 8

  function TwoTo(n: nat): real { if n == 0 then 1.0 else 2.0 * TwoTo(n - 1) }

  function AtMostAMinute(seconds: real): real { if seconds < 60.0 then seconds else 60.0 }

  function RetryAfter(ms: Option<nat>, attempt: nat): real {
    AtMostAMinute(if ms.Some? then ms.value as real / 1000.0 + 0.25 else TwoTo(attempt))
  }

  /** The wait after a refused try is what the server asked for and a little more, or else doubles from one second on; it is
      never more than a minute. */
  lemma WaitsAsTold(ms: Option<nat>, attempt: nat)
    ensures 0.0 < RetryAfter(ms, attempt) <= 60.0
    ensures ms.Some? ==> RetryAfter(ms, attempt) == 60.0 || RetryAfter(ms, attempt) > ms.value as real / 1000.0
    ensures ms.None? && attempt < 8 ==> RetryAfter(ms, attempt) == [1.0, 2.0, 4.0, 8.0, 16.0, 32.0, 60.0, 60.0][attempt]
  {
    PowersOfTwo(attempt);
    assert TwoTo(0) == 1.0 && TwoTo(1) == 2.0 && TwoTo(2) == 4.0 && TwoTo(3) == 8.0;
    assert TwoTo(4) == 16.0 && TwoTo(5) == 32.0 && TwoTo(6) == 64.0 && TwoTo(7) == 128.0;
    assert attempt < 8 ==> attempt in {0, 1, 2, 3, 4, 5, 6, 7};
  }

  lemma {:induction false} PowersOfTwo(n: nat)
    ensures TwoTo(n) >= 1.0
  {
    if n > 0 { PowersOfTwo(n - 1); }
  }

  function TotalWait(replies: nat -> Reply, tries: nat): real {
    if tries == 0 then 0.0
    else TotalWait(replies, tries - 1)
         + if replies(tries - 1).Limited? then RetryAfter(replies(tries - 1).retryAfter, tries - 1) else 0.0
  }

  /** The first answer from the k-th on that is not a rate limit, or the ninth. */
  function Final(replies: nat -> Reply, k: nat): Reply
    requires k <= RATE_LIMIT_ATTEMPTS
    decreases RATE_LIMIT_ATTEMPTS - k
  {
    if k < RATE_LIMIT_ATTEMPTS && replies(k).Limited? then Final(replies, k + 1) else replies(k)
  }

  /** _patiently: the first answer that is not a rate limit, or the ninth answer whatever it is. */
  method Patiently(replies: nat -> Reply) returns (reply: Reply, attempts: nat, waited: real)
    ensures 1 <= attempts <= RATE_LIMIT_ATTEMPTS + 1
    ensures reply == replies(attempts - 1) && reply == Final(replies, 0)
    ensures forall i: nat | i < attempts - 1 :: replies(i).Limited?
    ensures reply.Limited? ==> attempts == RATE_LIMIT_ATTEMPTS + 1
    ensures waited == TotalWait(replies, attempts - 1) <= 60.0 * (attempts - 1) as real
  {
    hide RetryAfter, TotalWait;
    attempts, waited := 0, 0.0;
    NextWait(replies, 0);
    while attempts < RATE_LIMIT_ATTEMPTS
      invariant attempts <= RATE_LIMIT_ATTEMPTS
      invariant forall i: nat | i < attempts :: replies(i).Limited?
      invariant Final(replies, 0) == Final(replies, attempts)
      invariant waited == TotalWait(replies, attempts)
    {
      reply := replies(attempts);
      NextWait(replies, attempts);
      attempts := attempts + 1;
      if !reply.Limited? {
        WaitsAreBounded(replies, attempts - 1);
        return;
      }
      waited := waited + RetryAfter(reply.retryAfter, attempts - 1);
    }
    reply := replies(attempts);
    WaitsAreBounded(replies, attempts);
    attempts := attempts + 1;
  }

  lemma NextWait(replies: nat -> Reply, k: nat)
    ensures TotalWait(replies, 0) == 0.0
    ensures replies(k).Limited? ==> TotalWait(replies, k + 1) == TotalWait(replies, k) + RetryAfter(replies(k).retryAfter, k)
  {
    hide RetryAfter;
  }

  lemma {:induction false} WaitsAreBounded(replies: nat -> Reply, k: nat)
    ensures TotalWait(replies, k) <= 60.0 * k as real
  {
    hide RetryAfter;
    if k > 0 {
      WaitsAreBounded(replies, k - 1);
      if replies(k - 1).Limited? { WaitsAsTold(replies(k - 1).retryAfter, k - 1); }
    }
  }

  // ----- the room's pin list -----

  /** The list without its first e. */
  function Remove<T(==)>(list: seq<T>, e: T): seq<T> {
    if list == [] then []
    else if list[0] == e then list[1..]
    else [list[0]] + Remove(list[1..], e)
  }

  /** The pin list after a pin or unpin; a missing list counts as empty. */
  function Repinned<T(==)>(current: Option<seq<T>>, e: T, pinned: bool): seq<T> {
    var list := if current.Some? then current.value else [];
    if pinned then (if e in list then list else list + [e]) else Remove(list, e)
  }

  /** list.remove. */
  method RemoveFirst<T(==)>(list: seq<T>, e: T) returns (left: seq<T>)
    requires e in list
    ensures left == Remove(list, e)
  {
    var k := 0;
    while list[k] != e
      invariant 0 <= k < |list| && e in list[k..]
      invariant Remove(list, e) == list[..k] + Remove(list[k..], e)
      decreases |list| - k
    {
      ghost var tail := Remove(list[k + 1..], e);
      assert list[k..][1..] == list[k + 1..];
      assert list[..k] + ([list[k]] + tail) == list[..k + 1] + tail;
      k := k + 1;
    }
    assert list[k..][1..] == list[k + 1..];
    left := list[..k] + list[k + 1..];
  }

  /** _set_pinned: the new list to write, or nothing when it would not change. */
  method SetPinned<T(==)>(current: Option<seq<T>>, e: T, pinned: bool) returns (written: Option<seq<T>>)
    ensures written == if pinned == (e in (if current.Some? then current.value else [])) then None
                       else Some(Repinned(current, e, pinned))
  {
    var existing := if current.Some? then current.value else [];
    if pinned && e !in existing {
      existing := existing + [e];
    } else if !pinned && e in existing {
      existing := RemoveFirst(existing, e);
    } else {
      return None;
    }
    written := Some(existing);
  }

  lemma {:induction false} RemoveLowersCount<T>(list: seq<T>, e: T)
    ensures multiset(Remove(list, e)) == multiset(list) - multiset{e}
    decreases |list|
  {
    if list != [] {
      assert list == [list[0]] + list[1..];
      if list[0] != e { RemoveLowersCount(list[1..], e); }
    }
  }

  /** Every other pin keeps its count, a pin is there afterwards, and an unpinned event is gone
      exactly when the list had it at most once: one call removes one copy. */
  lemma PinListIsRight<T>(current: Option<seq<T>>, e: T, x: T)
    ensures var list := if current.Some? then current.value else [];
            && e in Repinned(current, e, true)
            && (e !in Repinned(current, e, false) <==> multiset(list)[e] <= 1)
            && (x != e ==> multiset(Repinned(current, e, true))[x] == multiset(list)[x]
                           && multiset(Repinned(current, e, false))[x] == multiset(list)[x])
            && Repinned(Some(Repinned(current, e, true)), e, true) == Repinned(current, e, true)
  {
    var list := if current.Some? then current.value else [];
    RemoveLowersCount(list, e);
    var left := Remove(list, e);
    assert e in left <==> e in multiset(left);
    assert multiset(list + [e]) == multiset(list) + multiset{e};
  }

  lemma {:induction false} RemoveLast<T>(list: seq<T>, e: T)
    requires e !in list
    ensures Remove(list + [e], e) == list
    decreases |list|
  {
    if list != [] {
      assert (list + [e])[1..] == list[1..] + [e];
      RemoveLast(list[1..], e);
    }
  }

  /** Unpinning a card that was newly pinned restores the list, order and all. */
  lemma UnpinUndoesPin<T>(list: seq<T>, e: T)
    requires e !in list
    ensures Repinned(Some(Repinned(Some(list), e, true)), e, false) == list
  {
    RemoveLast(list, e);
  }

  // ----- one pass -----

  /** How things go for one notification: the answers, whether the pin and the acknowledgement get through,
      and what the rest of the system does before the answer and before the acknowledgement. */
  datatype Weather = Weather(replies: nat -> Reply, fallbackReplies: nat -> Reply, pinWorks: bool, ackWorks: bool,
                             first: seq<Action>, second: seq<Action>, third: seq<Action>)

  /** An action of someone else: another bot, the gateway, the network. */
  predicate NotBy(a: Action, b: Sender) {
    match a
    case Enqueue(_, _) => true
    case Serve(_) => true
    case ServeAck(_) => true
    case OtherPost => true
    case Poll(c, _) => c != b
    case Issue(c) => c != b
    case Receive(c) => c != b
    case RejectUnknown(c) => c != b
    case PinDone(c) => c != b
    case PinFail(c) => c != b
    case SendAck(c) => c != b
    case AckDone(c) => c != b
    case CycleDone(c) => c != b
    case Drop(c) => c != b
  }

  ghost predicate Elsewhere(actions: seq<Action>, b: Sender) {
    GoodActions(actions) && forall a | a in actions :: NotBy(a, b)
  }

  lemma StepElsewhere(w: World, a: Action, b: Sender)
    requires NotBy(a, b)
    ensures BotOf(Step(w, a), b) == BotOf(w, b) && w.requests <= Step(w, a).requests && w.acks <= Step(w, a).acks
  {
    hide PendingMatrix, EnqueueMatrix, CompleteMatrix, KeyOf;
  }

  lemma {:induction false} RunElsewhere(w: World, actions: seq<Action>, b: Sender)
    requires Elsewhere(actions, b)
    ensures BotOf(Run(w, actions), b) == BotOf(w, b)
    ensures w.requests <= Run(w, actions).requests && w.acks <= Run(w, actions).acks
    decreases |actions|
  {
    hide Step, BotOf;
    if actions != [] {
      assert actions[0] in actions;
      StepElsewhere(w, actions[0], b);
      RunElsewhere(Step(w, actions[0]), actions[1..], b);
    }
  }

  /** The trace is a run from s to t, nobody enqueues a bad id, and the invariant holds. */
  ghost predicate Explains(s: World, trace: seq<Action>, t: World) {
    GoodActions(trace) && Run(s, trace) == t && Inv(t)
  }

  lemma {:induction false} RunAppend(w: World, a: seq<Action>, b: seq<Action>)
    ensures Run(w, a + b) == Run(Run(w, a), b)
    decreases |a|
  {
    hide Step;
    if a == [] {
      assert a + b == b;
    } else {
      assert (a + b)[1..] == a[1..] + b;
      RunAppend(Step(w, a[0]), a[1..], b);
    }
  }

  lemma ExplainsMore(s: World, trace: seq<Action>, t: World, more: seq<Action>)
    requires Explains(s, trace, t) && GoodActions(more)
    ensures Explains(s, trace + more, Run(t, more))
  {
    hide Run, Inv;
    RunAppend(s, trace, more);
    RunKeeps(t, more);
  }

  lemma ExplainsStep(s: World, trace: seq<Action>, t: World, a: Action)
    requires Explains(s, trace, t) && !a.Enqueue?
    ensures Explains(s, trace + [a], Step(t, a))
  {
    hide Step, Inv;
    ExplainsMore(s, trace, t, [a]);
    assert Run(t, [a]) == Run(Step(t, a), [a][1..]);
  }

  lemma ExplainsInv(s: World, trace: seq<Action>, t: World)
    requires Explains(s, trace, t)
    ensures Inv(t)
  {
  }

  /** One write through _patiently: the request goes out, the rest of the system moves, the answer comes in. */
  method Write(w: World, b: Sender, replies: nat -> Reply, meanwhile: seq<Action>)
    returns (w': World, ghost trace: seq<Action>)
    requires Inv(w) && Wanted(w, b).Some? && Elsewhere(meanwhile, b)
    ensures Explains(w, trace, w')
    ensures var bot := BotOf(w, b);
            var (id, rest) := Current(bot);
            var bot' := BotOf(w', b);
            && (|| bot' == Idle
                || (bot'.Acking? && bot'.id == id && bot'.rest == rest)
                || (bot.Working? && bot.items[0].kind == Message && bot' == Falling(bot.items[0], rest)))
            && (Final(replies, 0) == Accepted ==> bot'.Acking?)
            && (bot' == Idle <==> Final(replies, 0) != Accepted
                                  && !(Final(replies, 0) == UnknownEvent && bot.Working? && bot.items[0].kind == Message))
  {
    hide Inv, Run, Step, Explains, KeyOf, Normal, Fallback;
    var req := Wanted(w, b).value;
    var reply, _, _ := Patiently(replies);
    w' := Step(w, Issue(b));
    trace := [Issue(b)];
    Started(w, b);
    IssueEffect(w, b);
    ghost var t := w';
    w' := Run(w', meanwhile);
    ExplainsMore(w, trace, t, meanwhile);
    RunElsewhere(t, meanwhile, b);
    trace := trace + meanwhile;
    SameWanted(w, w', b);
    var last := if reply == Accepted then Receive(b)
                else if reply == UnknownEvent && BotOf(w', b).Working? && BotOf(w', b).items[0].kind == Message then RejectUnknown(b)
                else Drop(b);
    if reply == Accepted || (last == RejectUnknown(b) && KeyOf(req) in w'.txns) {
      ExplainsStep(w, trace, w', Serve(req));
      StepElsewhere(w', Serve(req), b);
      ServeEffect(w', req);
      SameWanted(w', Step(w', Serve(req)), b);
      w', trace := Step(w', Serve(req)), trace + [Serve(req)];
      last := Receive(b);
    }
    AnswerEffect(w', b, last);
    ExplainsStep(w, trace, w', last);
    w', trace := Step(w', last), trace + [last];
  }

  lemma Started(w: World, b: Sender)
    requires Inv(w)
    ensures Explains(w, [Issue(b)], Step(w, Issue(b)))
  {
    hide Inv, Step;
    assert Explains(w, [], w);
    ExplainsStep(w, [], w, Issue(b));
    assert [] + [Issue(b)] == [Issue(b)];
  }

  lemma IssueEffect(w: World, b: Sender)
    requires Wanted(w, b).Some?
    ensures Wanted(w, b).value in Step(w, Issue(b)).requests && BotOf(Step(w, Issue(b)), b) == BotOf(w, b)
  {
  }

  lemma SameWanted(w: World, w': World, b: Sender)
    requires BotOf(w', b) == BotOf(w, b)
    ensures Wanted(w', b) == Wanted(w, b)
  {
  }

  lemma ServeEffect(w: World, req: Request)
    requires req in w.requests
    ensures KeyOf(req) in Step(w, Serve(req)).txns && Step(w, Serve(req)).requests == w.requests
  {
  }

  /** What the last action of a write does to the bot. */
  lemma AnswerEffect(w: World, b: Sender, a: Action)
    requires Wanted(w, b).Some? && Wanted(w, b).value in w.requests
    requires a == Drop(b)
             || (a == Receive(b) && KeyOf(Wanted(w, b).value) in w.txns)
             || (a == RejectUnknown(b) && KeyOf(Wanted(w, b).value) !in w.txns && BotOf(w, b).Working?
                 && BotOf(w, b).items[0].kind == Message)
    ensures var (id, rest) := Current(BotOf(w, b));
            var bot' := BotOf(Step(w, a), b);
            && (a.Drop? ==> bot' == Idle)
            && (a.Receive? ==> bot'.Acking? && bot'.id == id && bot'.rest == rest)
            && (a.RejectUnknown? ==> bot' == Falling(BotOf(w, b).items[0], rest))
  {
    hide KeyOf, Normal, Fallback;
  }

  /** The acknowledgement of what was sent. */
  method Acknowledge(w: World, b: Sender, ackWorks: bool, meanwhile: seq<Action>)
    returns (w': World, ghost trace: seq<Action>)
    requires Inv(w) && BotOf(w, b).Acking? && Elsewhere(meanwhile, b)
    ensures Explains(w, trace, w')
    ensures BotOf(w', b) == if ackWorks then Working(BotOf(w, b).rest) else Idle
    ensures ackWorks ==> SentIn(w', BotOf(w, b).id)
  {
    hide Inv, Run, Step, Explains;
    var ack := Ack(BotOf(w, b).id, BotOf(w, b).ev);
    w', trace := Step(w, SendAck(b)), [SendAck(b)];
    ghost var t := w';
    ExplainsFirst(w, SendAck(b));
    SendAckEffect(w, b);
    w' := Run(w', meanwhile);
    ExplainsMore(w, trace, t, meanwhile);
    RunElsewhere(t, meanwhile, b);
    trace := trace + meanwhile;
    if ackWorks {
      ExplainsInv(w, trace, w');
      ServeAckEffect(w', b, ack);
      ExplainsStep(w, trace, w', ServeAck(ack));
      w', trace := Step(w', ServeAck(ack)), trace + [ServeAck(ack)];
      ExplainsStep(w, trace, w', AckDone(b));
      w', trace := Step(w', AckDone(b)), trace + [AckDone(b)];
    } else {
      ExplainsStep(w, trace, w', Drop(b));
      DropEffect(w', b);
      w', trace := Step(w', Drop(b)), trace + [Drop(b)];
    }
  }

  predicate SentIn(w: World, id: string) { id in w.rows && w.rows[id].sent.Some? }

  lemma ExplainsFirst(w: World, a: Action)
    requires Inv(w) && !a.Enqueue?
    ensures Explains(w, [a], Step(w, a))
  {
    hide Inv, Step;
    assert Explains(w, [], w);
    ExplainsStep(w, [], w, a);
    assert [] + [a] == [a];
  }

  lemma SendAckEffect(w: World, b: Sender)
    requires BotOf(w, b).Acking?
    ensures BotOf(Step(w, SendAck(b)), b) == BotOf(w, b)
    ensures Ack(BotOf(w, b).id, BotOf(w, b).ev) in Step(w, SendAck(b)).acks
  {
  }

  lemma ServeAckEffect(w: World, b: Sender, ack: Ack)
    requires Inv(w) && ack in w.acks && BotOf(w, b).Acking? && ack == Ack(BotOf(w, b).id, BotOf(w, b).ev)
    ensures var v := Step(Step(w, ServeAck(ack)), AckDone(b));
            BotOf(v, b) == Working(BotOf(w, b).rest) && SentIn(v, ack.id)
  {
    assert SentOk(w, ack.id, ack.ev);
    hide Inv, SentOk;
  }

  lemma DropEffect(w: World, b: Sender)
    ensures BotOf(Step(w, Drop(b)), b) == Idle
  {
  }

  lemma PinEffect(w: World, b: Sender)
    requires BotOf(w, b).Working? && BotOf(w, b).items != [] && BotOf(w, b).items[0].kind in {Pin, Unpin}
    ensures var items := BotOf(w, b).items;
            && BotOf(Step(w, PinFail(b)), b) == Working(items[1..])
            && BotOf(Step(w, PinDone(b)), b) == Acking(items[0].id, items[0].target, items[1..])
  {
  }

  lemma ExplainsJoin(s: World, trace: seq<Action>, t: World, more: seq<Action>, u: World)
    requires Explains(s, trace, t) && Explains(t, more, u)
    ensures Explains(s, trace + more, u)
  {
    hide Run, Inv;
    RunAppend(s, trace, more);
  }

  /** The way is clear for a notification: it is accepted, if need be as its fallback, and acknowledged, or it is a pin
      that fails and is skipped. */
  predicate Passes(item: Item, weather: Weather) {
    if item.kind in {Pin, Unpin} then !weather.pinWorks || weather.ackWorks
    else
      && weather.ackWorks
      && (|| Final(weather.replies, 0) == Accepted
          || (Final(weather.replies, 0) == UnknownEvent && item.kind == Message && Final(weather.fallbackReplies, 0) == Accepted))
  }

  /** The notification ends the pass: no answer but a refusal of something other than a message's thread, or no
      acknowledgement. */
  predicate Stops(item: Item, weather: Weather) {
    if item.kind in {Pin, Unpin} then weather.pinWorks && !weather.ackWorks
    else
      || !weather.ackWorks
      || (Final(weather.replies, 0) != Accepted && !(Final(weather.replies, 0) == UnknownEvent && item.kind == Message))
  }

  /** One notification. On a failure the rest of the poll is dropped; a pin that fails is skipped. */
  method DeliverItem(w: World, b: Sender, weather: Weather) returns (w': World, ghost trace: seq<Action>)
    requires Inv(w) && BotOf(w, b).Working? && BotOf(w, b).items != []
    requires Elsewhere(weather.first, b) && Elsewhere(weather.second, b) && Elsewhere(weather.third, b)
    ensures Explains(w, trace, w')
    ensures BotOf(w', b) == Idle || BotOf(w', b) == Working(BotOf(w, b).items[1..])
    ensures BotOf(w', b).Working? && (BotOf(w, b).items[0].kind in {Message, Edit} || weather.pinWorks)
            ==> SentIn(w', BotOf(w, b).items[0].id)
    ensures Passes(BotOf(w, b).items[0], weather) ==> BotOf(w', b).Working?
    ensures Stops(BotOf(w, b).items[0], weather) ==> BotOf(w', b) == Idle
  {
    hide Inv, Run, Step, Explains, Elsewhere, SentIn;
    var item := BotOf(w, b).items[0];
    ghost var part;
    if item.kind in {Pin, Unpin} {
      PinEffect(w, b);
      if !weather.pinWorks {
        ExplainsFirst(w, PinFail(b));
        return Step(w, PinFail(b)), [PinFail(b)];
      }
      w', trace := Step(w, PinDone(b)), [PinDone(b)];
      ExplainsFirst(w, PinDone(b));
    } else {
      assert item.kind == Message || item.kind == Edit;
      w', trace := Write(w, b, weather.replies, weather.first);
      if BotOf(w', b).Falling? {
        ghost var t := w';
        ExplainsInv(w, trace, w');
        w', part := Write(w', b, weather.fallbackReplies, weather.second);
        ExplainsJoin(w, trace, t, part, w');
        trace := trace + part;
      }
    }
    if BotOf(w', b).Acking? {
      ghost var t := w';
      ExplainsInv(w, trace, w');
      w', part := Acknowledge(w', b, weather.ackWorks, weather.third);
      ExplainsJoin(w, trace, t, part, w');
      trace := trace + part;
    }
  }

  /** The first n of the items are on record as sent, but for pins that failed. */
  ghost predicate Settled(w: World, items: seq<Item>, weather: nat -> Weather, n: nat)
    requires n <= |items|
  {
    forall i | 0 <= i < n && (items[i].kind in {Message, Edit} || weather(i).pinWorks) :: SentIn(w, items[i].id)
  }

  lemma SettledStays(s: World, trace: seq<Action>, t: World, items: seq<Item>, weather: nat -> Weather, n: nat)
    requires Explains(s, trace, t) && n <= |items| && Settled(s, items, weather, n)
    ensures Settled(t, items, weather, n)
  {
    hide Inv, Run;
    WrittenOnce(s, trace);
  }

  /** One turn of _deliver_outbox, with the rest of the system moving in between: a run of the protocol. When nothing
      fails, the pass gets to the end, and then everything the poll returned but for pins that failed is on record as
      sent; a notification that stops it, stops it. */
  method DeliverOutbox(w: World, b: Sender, weather: nat -> Weather) returns (w': World, done: bool, ghost trace: seq<Action>)
    requires Inv(w) && BotOf(w, b) == Idle
    requires forall i: nat :: Elsewhere(weather(i).first, b) && Elsewhere(weather(i).second, b) && Elsewhere(weather(i).third, b)
    ensures Explains(w, trace, w') && BotOf(w', b) == Idle
    ensures done ==> Settled(w', PendingMatrix(w.rows, b, 20), weather, |PendingMatrix(w.rows, b, 20)|)
    ensures (forall n | 0 <= n < |PendingMatrix(w.rows, b, 20)| :: Passes(PendingMatrix(w.rows, b, 20)[n], weather(n))) ==> done
    ensures done ==> forall n | 0 <= n < |PendingMatrix(w.rows, b, 20)| :: !Stops(PendingMatrix(w.rows, b, 20)[n], weather(n))
  {
    hide Inv, Run, Step, Explains, Elsewhere, SentIn, Settled, PendingMatrix, Passes, Stops;
    var items := PendingMatrix(w.rows, b, 20);
    w', trace := Step(w, Poll(b, 20)), [Poll(b, 20)];
    ExplainsFirst(w, Poll(b, 20));
    PollEffect(w, b);
    var n: nat := 0;
    SettledNone(w', items, weather);
    while n < |items|
      invariant n <= |items| && BotOf(w', b) == Working(items[n..])
      invariant Explains(w, trace, w') && Settled(w', items, weather, n)
      invariant forall i | 0 <= i < n :: !Stops(items[i], weather(i))
    {
      ghost var t, part := w', [];
      ExplainsInv(w, trace, w');
      w', part := DeliverItem(w', b, weather(n));
      ExplainsJoin(w, trace, t, part, w');
      SettledStays(t, part, w', items, weather, n);
      trace := trace + part;
      assert items[n..][1..] == items[n + 1..] && items[n..][0] == items[n];
      if BotOf(w', b) == Idle {
        return w', false, trace;
      }
      SettledNext(w', items, weather, n);
      n := n + 1;
    }
    ExplainsStep(w, trace, w', CycleDone(b));
    SettledAtEnd(w', b, items, weather);
    w', trace := Step(w', CycleDone(b)), trace + [CycleDone(b)];
    done := true;
  }

  lemma PollEffect(w: World, b: Sender)
    requires BotOf(w, b) == Idle
    ensures BotOf(Step(w, Poll(b, 20)), b) == Working(PendingMatrix(w.rows, b, 20)[0..])
  {
    hide PendingMatrix;
    assert PendingMatrix(w.rows, b, 20)[0..] == PendingMatrix(w.rows, b, 20);
  }

  lemma SettledNone(w: World, items: seq<Item>, weather: nat -> Weather)
    ensures Settled(w, items, weather, 0)
  {
  }

  lemma SettledNext(w: World, items: seq<Item>, weather: nat -> Weather, n: nat)
    requires n < |items| && Settled(w, items, weather, n)
    requires items[n].kind in {Message, Edit} || weather(n).pinWorks ==> SentIn(w, items[n].id)
    ensures Settled(w, items, weather, n + 1)
  {
  }

  lemma SettledAtEnd(w: World, b: Sender, items: seq<Item>, weather: nat -> Weather)
    requires Settled(w, items, weather, |items|) && BotOf(w, b) == Working(items[|items|..])
    ensures Settled(Step(w, CycleDone(b)), items, weather, |items|) && BotOf(Step(w, CycleDone(b)), b) == Idle
  {
    assert items[|items|..] == [];
    assert Step(w, CycleDone(b)).rows == w.rows;
  }
}
