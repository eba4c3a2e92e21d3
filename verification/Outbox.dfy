/** The outbox protocol: the gateway's table, three bots that poll, send and acknowledge, and the Matrix server.
    Requests and acknowledgements stay in the network for ever: they may arrive late, twice, or never. */
module Outbox {
  import opened Basics
  import opened Ordering

  datatype Sender = Gateway | Planner | Coordinator
  datatype Kind = Message | Edit | Pin | Unpin

  /** An event id: its place in the server's history, or the empty string. */
  datatype Ref = NoEvent | Event(index: nat)

  /** matrix_outbox; the state is 'sent' exactly when sent is set. */
  datatype Row = Row(room: string, threadRoot: Ref, body: string, kind: Kind, sender: Sender,
                     thread: string, target: string, createdAt: int, sent: Option<Ref>)

  type Rows = map<string, Row>

  /** One notification as a poll hands it out. */
  datatype Item = Item(id: string, room: string, threadRoot: Ref, body: string, kind: Kind, target: Ref)

  // ----- transactions of the gateway -----

  /** The event a notification was sent as, or the empty string. */
  function SentAs(rows: Rows, id: string): Ref {
    if id in rows && rows[id].sent.Some? then rows[id].sent.value else NoEvent
  }

  function ThreadOf(rows: Rows, row: Row): Ref {
    if row.threadRoot != NoEvent then row.threadRoot else SentAs(rows, row.thread)
  }

  /** What the notification refers to has been sent. */
  predicate Released(rows: Rows, row: Row) {
    && (row.thread == "" || (row.thread in rows && rows[row.thread].sent.Some?))
    && (row.target == "" || (row.target in rows && rows[row.target].sent.Some?))
  }

  function Due(rows: Rows, b: Sender): map<string, int> {
    map id | id in rows && rows[id].sent.None? && Released(rows, rows[id]) && rows[id].sender == b :: rows[id].createdAt
  }

  function ItemOf(rows: Rows, id: string): Item
    requires id in rows
  {
    var row := rows[id];
    Item(id, row.room, ThreadOf(rows, row), row.body, row.kind, SentAs(rows, row.target))
  }

  function ItemsOf(rows: Rows, ids: seq<string>): seq<Item>
    requires forall i | 0 <= i < |ids| :: ids[i] in rows
  {
    seq(|ids|, i requires 0 <= i < |ids| => ItemOf(rows, ids[i]))
  }

  /** pending_matrix for one sender. */
  function PendingMatrix(rows: Rows, b: Sender, limit: nat): seq<Item> {
    ItemsOf(rows, Select(Due(rows, b), limit))
  }

  /** enqueue_matrix: INSERT OR IGNORE. */
  function EnqueueMatrix(rows: Rows, id: string, row: Row): Rows {
    if id in rows then rows else rows[id := row.(sent := None)]
  }

  /** complete_matrix: only a pending row takes the event id. */
  function CompleteMatrix(rows: Rows, id: string, ev: Ref): Rows {
    if id in rows && rows[id].sent.None? then rows[id := rows[id].(sent := Some(ev))] else rows
  }

  // ----- the machine -----

  const FALLBACK := "-fallback"

  /** A room event request: on behalf of which notification, in its own right or as its fallback. */
  datatype Request = Request(sender: Sender, room: string, origin: string, fallback: bool, thread: Ref, edits: Ref, body: string)

  datatype Key = Key(sender: Sender, room: string, txn: string)

  function TxnId(r: Request): string { if r.fallback then r.origin + FALLBACK else r.origin }

  /** The server deduplicates transaction ids per device and room. */
  function KeyOf(r: Request): Key { Key(r.sender, r.room, TxnId(r)) }

  function Normal(b: Sender, item: Item): Request {
    if item.kind == Edit then Request(b, item.room, item.id, false, NoEvent, item.target, item.body)
    else Request(b, item.room, item.id, false, item.threadRoot, NoEvent, item.body)
  }

  function Fallback(b: Sender, item: Item): Request {
    Request(b, item.room, item.id, true, NoEvent, NoEvent, "[Original context unavailable] " + item.body)
  }

  datatype Bot =
    | Idle
    | Working(items: seq<Item>)
    | Falling(item: Item, rest: seq<Item>)
    | Acking(id: string, ev: Ref, rest: seq<Item>)

  datatype Post = FromBot(req: Request) | FromOther
  datatype Ack = Ack(id: string, ev: Ref)

  datatype World = World(rows: Rows, bots: map<Sender, Bot>, log: seq<Post>, txns: map<Key, nat>,
                         requests: set<Request>, acks: set<Ack>, rejected: set<string>)

  const INITIAL := World(map[], map[], [], map[], {}, {}, {})

  function BotOf(w: World, b: Sender): Bot { if b in w.bots then w.bots[b] else Idle }

  datatype Action =
    | Enqueue(id: string, row: Row)
    | Poll(b: Sender, limit: nat)
    | Issue(b: Sender)
    | Serve(req: Request)
    | Receive(b: Sender)
    | RejectUnknown(b: Sender)
    | PinDone(b: Sender)
    | PinFail(b: Sender)
    | SendAck(b: Sender)
    | ServeAck(ack: Ack)
    | AckDone(b: Sender)
    | CycleDone(b: Sender)
    | Drop(b: Sender)
    | OtherPost

  /** The request the bot is waiting on. */
  function Wanted(w: World, b: Sender): Option<Request> {
    match BotOf(w, b)
    case Working(items) =>
      if items != [] && items[0].kind in {Message, Edit} then Some(Normal(b, items[0])) else None
    case Falling(item, _) => Some(Fallback(b, item))
    case _ => None
  }

  function Current(bot: Bot): (string, seq<Item>)
    requires (bot.Working? && bot.items != []) || bot.Falling?
  {
    if bot.Falling? then (bot.item.id, bot.rest) else (bot.items[0].id, bot.items[1..])
  }

  function Set(w: World, b: Sender, bot: Bot): World { w.(bots := w.bots[b := bot]) }

  function Step(w: World, a: Action): World {
    match a
    case Enqueue(id, row) => w.(rows := EnqueueMatrix(w.rows, id, row))
    case Poll(b, limit) => if BotOf(w, b).Idle? then Set(w, b, Working(PendingMatrix(w.rows, b, limit))) else w
    case Issue(b) =>
      var r := Wanted(w, b);
      if r.Some? then w.(requests := w.requests + {r.value}) else w
    case Serve(req) =>
      if req in w.requests && KeyOf(req) !in w.txns
      then w.(log := w.log + [FromBot(req)], txns := w.txns[KeyOf(req) := |w.log|])
      else w
    case Receive(b) =>
      var r := Wanted(w, b);
      if r.Some? && r.value in w.requests && KeyOf(r.value) in w.txns
      then Set(w, b, Acking(Current(BotOf(w, b)).0, Event(w.txns[KeyOf(r.value)]), Current(BotOf(w, b)).1))
      else w
    case RejectUnknown(b) =>
      var r, bot := Wanted(w, b), BotOf(w, b);
      if r.Some? && bot.Working? && bot.items[0].kind == Message && r.value in w.requests && KeyOf(r.value) !in w.txns
      then Set(w, b, Falling(bot.items[0], bot.items[1..])).(rejected := w.rejected + {bot.items[0].id})
      else w
    case PinDone(b) =>
      var bot := BotOf(w, b);
      if bot.Working? && bot.items != [] && bot.items[0].kind in {Pin, Unpin}
      then Set(w, b, Acking(bot.items[0].id, bot.items[0].target, bot.items[1..]))
      else w
    case PinFail(b) =>
      var bot := BotOf(w, b);
      if bot.Working? && bot.items != [] && bot.items[0].kind in {Pin, Unpin} then Set(w, b, Working(bot.items[1..])) else w
    case SendAck(b) =>
      var bot := BotOf(w, b);
      if bot.Acking? then w.(acks := w.acks + {Ack(bot.id, bot.ev)}) else w
    case ServeAck(ack) => if ack in w.acks then w.(rows := CompleteMatrix(w.rows, ack.id, ack.ev)) else w
    case AckDone(b) =>
      var bot := BotOf(w, b);
      if bot.Acking? && bot.id in w.rows && w.rows[bot.id].sent.Some? then Set(w, b, Working(bot.rest)) else w
    case CycleDone(b) => if BotOf(w, b) == Working([]) then Set(w, b, Idle) else w
    case Drop(b) => Set(w, b, Idle)
    case OtherPost => w.(log := w.log + [FromOther])
  }

  function Run(w: World, actions: seq<Action>): World
    decreases |actions|
  {
    if actions == [] then w else Run(Step(w, actions[0]), actions[1..])
  }

  // ----- ids -----

  predicate EndsWith(s: string, suffix: string) { |s| >= |suffix| && s[|s| - |suffix|..] == suffix }

  /** The gateway's notification ids are not empty and none ends like a fallback's transaction id. */
  predicate GoodId(id: string) { id != "" && !EndsWith(id, FALLBACK) }

  ghost predicate GoodActions(actions: seq<Action>) {
    forall a | a in actions :: a.Enqueue? ==> GoodId(a.id)
  }

  lemma KeysTellRequestsApart(r: Request, s: Request)
    requires GoodId(r.origin) && GoodId(s.origin) && KeyOf(r) == KeyOf(s)
    ensures r.origin == s.origin && r.fallback == s.fallback
  {
    assert (r.origin + FALLBACK)[|r.origin|..] == FALLBACK && (s.origin + FALLBACK)[|s.origin|..] == FALLBACK;
    assert (r.origin + FALLBACK)[..|r.origin|] == r.origin && (s.origin + FALLBACK)[..|s.origin|] == s.origin;
  }

  // ----- invariant -----

  predicate Before(r: Ref, n: nat) { r.NoEvent? || r.index < n }

  /** A value that may be stored as the sent event of a notification. */
  ghost predicate SentOk(w: World, id: string, ev: Ref) {
    && id in w.rows && Before(ev, |w.log|)
    && if w.rows[id].kind in {Message, Edit}
       then ev.Event? && PostedFor(w, ev.index, id)
       else Released(w.rows, w.rows[id]) && ev == SentAs(w.rows, w.rows[id].target)
  }

  /** History entry i was sent for this notification, in its room, by its sender. */
  ghost predicate PostedFor(w: World, i: nat, id: string) {
    && i < |w.log| && w.log[i].FromBot? && w.log[i].req.origin == id
    && id in w.rows && w.log[i].req.sender == w.rows[id].sender && w.log[i].req.room == w.rows[id].room
  }

  ghost predicate RequestOk(w: World, r: Request) {
    && r.origin in w.rows
    && var row := w.rows[r.origin];
       && r.sender == row.sender && r.room == row.room && row.kind in {Message, Edit} && Released(w.rows, row)
       && if r.fallback then row.kind == Message && r.thread == NoEvent && r.edits == NoEvent && r.origin in w.rejected
          else if row.kind == Edit then r.thread == NoEvent && r.edits == SentAs(w.rows, row.target) && r.body == row.body
          else r.thread == ThreadOf(w.rows, row) && r.edits == NoEvent && r.body == row.body
  }

  ghost predicate ItemOk(w: World, b: Sender, item: Item) {
    && item.id in w.rows && w.rows[item.id].sender == b && Released(w.rows, w.rows[item.id])
    && item == ItemOf(w.rows, item.id)
  }

  ghost predicate BotOk(w: World, b: Sender, bot: Bot) {
    match bot
    case Idle => true
    case Working(items) => forall i | 0 <= i < |items| :: ItemOk(w, b, items[i])
    case Falling(item, rest) =>
      ItemOk(w, b, item) && item.kind == Message && item.id in w.rejected && forall i | 0 <= i < |rest| :: ItemOk(w, b, rest[i])
    case Acking(id, ev, rest) => SentOk(w, id, ev) && forall i | 0 <= i < |rest| :: ItemOk(w, b, rest[i])
  }

  /** The request is kept under its key, and what it refers to was sent before it. */
  ghost predicate EntryOk(w: World, i: nat)
    requires i < |w.log|
  {
    w.log[i].FromBot? ==>
      var r := w.log[i].req;
      && RequestOk(w, r) && KeyOf(r) in w.txns && w.txns[KeyOf(r)] == i && Before(r.edits, i)
      && (w.rows[r.origin].threadRoot == NoEvent ==> Before(r.thread, i))
  }

  ghost predicate TxnOk(w: World, k: Key)
    requires k in w.txns
  {
    w.txns[k] < |w.log| && w.log[w.txns[k]].FromBot? && KeyOf(w.log[w.txns[k]].req) == k
  }

  ghost predicate RowOk(w: World, id: string)
    requires id in w.rows
  {
    GoodId(id) && (w.rows[id].sent.Some? ==> SentOk(w, id, w.rows[id].sent.value))
  }

  ghost predicate Inv(w: World) {
    && (forall id | id in w.rows :: RowOk(w, id))
    && (forall i | 0 <= i < |w.log| :: EntryOk(w, i))
    && (forall k | k in w.txns :: TxnOk(w, k))
    && (forall r | r in w.requests :: RequestOk(w, r))
    && (forall a | a in w.acks :: SentOk(w, a.id, a.ev))
    && (forall b | b in w.bots :: BotOk(w, b, w.bots[b]))
  }

  /** Rows are never removed or rewritten but for the one write of the event id; history and keys only grow. */
  ghost predicate Extends(w: World, w': World) {
    && (forall id | id in w.rows ::
          id in w'.rows && (w'.rows[id] == w.rows[id]
                            || (w.rows[id].sent.None? && w'.rows[id] == w.rows[id].(sent := w'.rows[id].sent))))
    && w.log <= w'.log && w.rejected <= w'.rejected
    && (forall k | k in w.txns :: k in w'.txns && w'.txns[k] == w.txns[k])
    && ("" in w'.rows ==> "" in w.rows)
  }

  lemma ReleasedStays(w: World, w': World, id: string)
    requires Extends(w, w') && "" !in w.rows && id in w.rows && Released(w.rows, w.rows[id])
    ensures id in w'.rows && Released(w'.rows, w'.rows[id])
    ensures SentAs(w'.rows, w'.rows[id].target) == SentAs(w.rows, w.rows[id].target)
    ensures ThreadOf(w'.rows, w'.rows[id]) == ThreadOf(w.rows, w.rows[id])
  {
  }

  lemma SentStays(w: World, w': World, id: string, ev: Ref)
    requires Extends(w, w') && "" !in w.rows && SentOk(w, id, ev)
    ensures SentOk(w', id, ev)
  {
    if w.rows[id].kind !in {Message, Edit} { ReleasedStays(w, w', id); }
  }

  lemma RequestStays(w: World, w': World, r: Request)
    requires Extends(w, w') && "" !in w.rows && RequestOk(w, r)
    ensures RequestOk(w', r)
  {
    ReleasedStays(w, w', r.origin);
  }

  lemma ItemStays(w: World, w': World, b: Sender, item: Item)
    requires Extends(w, w') && "" !in w.rows && ItemOk(w, b, item)
    ensures ItemOk(w', b, item)
  {
    ReleasedStays(w, w', item.id);
  }

  lemma BotStays(w: World, w': World, b: Sender, bot: Bot)
    requires Extends(w, w') && "" !in w.rows && BotOk(w, b, bot)
    ensures BotOk(w', b, bot)
  {
    hide ItemOk, SentOk;
    forall item | ItemOk(w, b, item) ensures ItemOk(w', b, item) { ItemStays(w, w', b, item); }
    forall id, ev | SentOk(w, id, ev) ensures SentOk(w', id, ev) { SentStays(w, w', id, ev); }
    hide Extends;
  }

  lemma EntryStays(w: World, w': World, i: nat)
    requires Extends(w, w') && "" !in w.rows && i < |w.log| && EntryOk(w, i)
    ensures i < |w'.log| && EntryOk(w', i)
  {
    hide RequestOk;
    if w.log[i].FromBot? {
      RequestStays(w, w', w.log[i].req);
      OriginExists(w, w.log[i].req);
    }
  }

  lemma OriginExists(w: World, r: Request)
    requires RequestOk(w, r)
    ensures r.origin in w.rows
  {
  }

  lemma NoEmptyId(w: World)
    requires Inv(w)
    ensures "" !in w.rows
  {
    forall id | id in w.rows ensures GoodId(id) { assert RowOk(w, id); }
  }

  /** A step keeps the invariant when whatever it adds is sound. */
  lemma Settle(w: World, w': World)
    requires Inv(w) && Extends(w, w')
    requires forall id | id in w'.rows :: (id in w.rows && w'.rows[id].sent == w.rows[id].sent) || RowOk(w', id)
    requires forall i | |w.log| <= i < |w'.log| :: EntryOk(w', i)
    requires forall k | k in w'.txns && k !in w.txns :: TxnOk(w', k)
    requires forall r | r in w'.requests && r !in w.requests :: RequestOk(w', r)
    requires forall a | a in w'.acks && a !in w.acks :: SentOk(w', a.id, a.ev)
    requires forall b | b in w'.bots :: (b in w.bots && w'.bots[b] == w.bots[b]) || BotOk(w', b, w'.bots[b])
    ensures Inv(w')
  {
    hide SentOk, RequestOk, BotOk, EntryOk, Extends;
    NoEmptyId(w);
    ExtendsLog(w, w');
    forall id | id in w'.rows ensures RowOk(w', id) {
      if id in w.rows && w'.rows[id].sent == w.rows[id].sent {
        assert RowOk(w, id);
        if w.rows[id].sent.Some? { SentStays(w, w', id, w.rows[id].sent.value); }
      }
    }
    forall i | 0 <= i < |w'.log| ensures EntryOk(w', i) { if i < |w.log| { EntryStays(w, w', i); } }
    forall k | k in w'.txns ensures TxnOk(w', k) { if k in w.txns { assert TxnOk(w, k); } }
    forall r | r in w'.requests ensures RequestOk(w', r) { if r in w.requests { RequestStays(w, w', r); } }
    forall a | a in w'.acks ensures SentOk(w', a.id, a.ev) { if a in w.acks { SentStays(w, w', a.id, a.ev); } }
    forall b | b in w'.bots ensures BotOk(w', b, w'.bots[b]) {
      if b in w.bots && w'.bots[b] == w.bots[b] { BotStays(w, w', b, w.bots[b]); }
    }
  }

  lemma ExtendsLog(w: World, w': World)
    requires Extends(w, w')
    ensures |w.log| <= |w'.log| && forall i | 0 <= i < |w.log| :: w'.log[i] == w.log[i]
    ensures forall k | k in w.txns :: k in w'.txns && w'.txns[k] == w.txns[k]
  {
  }

  // ----- every step keeps it -----

  lemma BotIsOk(w: World, b: Sender)
    requires Inv(w)
    ensures BotOk(w, b, BotOf(w, b))
  {
  }

  /** A step that only moves a bot. */
  lemma MoveKeeps(w: World, b: Sender, bot: Bot, id: string)
    requires Inv(w) && BotOk(Set(w, b, bot).(rejected := w.rejected + {id}), b, bot)
    ensures Inv(Set(w, b, bot).(rejected := w.rejected + {id}))
  {
    hide BotOk, Inv, RowOk, EntryOk, TxnOk, RequestOk, SentOk;
    Settle(w, Set(w, b, bot).(rejected := w.rejected + {id}));
  }

  lemma StayKeeps(w: World, b: Sender, bot: Bot)
    requires Inv(w) && BotOk(w, b, bot)
    ensures Inv(Set(w, b, bot))
  {
    hide BotOk, Inv, RowOk, EntryOk, TxnOk, RequestOk, SentOk;
    NoEmptyId(w);
    BotStays(w, Set(w, b, bot), b, bot);
    Settle(w, Set(w, b, bot));
  }

  lemma PolledItems(w: World, b: Sender, limit: nat)
    ensures BotOk(w, b, Working(PendingMatrix(w.rows, b, limit)))
  {
    var ids := Select(Due(w.rows, b), limit);
    forall i | 0 <= i < |ids| ensures ItemOk(w, b, PendingMatrix(w.rows, b, limit)[i]) {
      assert ids[i] in Due(w.rows, b);
    }
  }

  lemma EnqueueKeeps(w: World, id: string, row: Row)
    requires Inv(w) && GoodId(id)
    ensures Inv(Step(w, Enqueue(id, row)))
  {
    hide BotOk, Inv, EntryOk, TxnOk, RequestOk, SentOk;
    Settle(w, Step(w, Enqueue(id, row)));
  }

  lemma WantedIsOk(w: World, b: Sender)
    requires Inv(w) && Wanted(w, b).Some?
    ensures RequestOk(w, Wanted(w, b).value)
  {
    hide Inv;
    BotIsOk(w, b);
  }

  lemma IssueKeeps(w: World, b: Sender)
    requires Inv(w)
    ensures Inv(Step(w, Issue(b)))
  {
    hide BotOk, Inv, EntryOk, TxnOk, RequestOk, SentOk, RowOk;
    if Wanted(w, b).Some? {
      var w' := Step(w, Issue(b));
      WantedIsOk(w, b);
      NoEmptyId(w);
      RequestStays(w, w', Wanted(w, b).value);
      Settle(w, w');
    }
  }

  lemma SentBefore(w: World, id: string)
    requires Inv(w)
    ensures Before(SentAs(w.rows, id), |w.log|)
  {
    if id in w.rows { assert RowOk(w, id); }
  }

  lemma ServeKeeps(w: World, req: Request)
    requires Inv(w)
    ensures Inv(Step(w, Serve(req)))
  {
    hide BotOk, SentOk, RowOk, EntryOk, RequestOk;
    if req in w.requests && KeyOf(req) !in w.txns {
      var w' := Step(w, Serve(req));
      NoEmptyId(w);
      ServedEntry(w, req);
      hide Inv;
      Settle(w, w');
    }
  }

  lemma ServedEntry(w: World, req: Request)
    requires Inv(w) && req in w.requests && KeyOf(req) !in w.txns
    ensures EntryOk(Step(w, Serve(req)), |w.log|)
  {
    assert RequestOk(w, req);
    var row := w.rows[req.origin];
    SentBefore(w, row.target);
    SentBefore(w, row.thread);
    NoEmptyId(w);
    hide Inv;
    RequestStays(w, Step(w, Serve(req)), req);
  }

  /** The event the server answers with was posted for the notification the bot is working on. */
  lemma ReplyIsOwn(w: World, r: Request)
    requires Inv(w) && RequestOk(w, r) && KeyOf(r) in w.txns
    ensures SentOk(w, r.origin, Event(w.txns[KeyOf(r)]))
  {
    var i := w.txns[KeyOf(r)];
    assert TxnOk(w, KeyOf(r));
    assert EntryOk(w, i);
    var s := w.log[i].req;
    assert RowOk(w, r.origin) && RowOk(w, s.origin);
    KeysTellRequestsApart(r, s);
  }

  lemma ReceiveKeeps(w: World, b: Sender)
    requires Inv(w)
    ensures Inv(Step(w, Receive(b)))
  {
    hide Inv, SentOk, ItemOk, RequestOk;
    var r := Wanted(w, b);
    if r.Some? && r.value in w.requests && KeyOf(r.value) in w.txns {
      WantedIsOk(w, b);
      ReplyIsOwn(w, r.value);
      BotIsOk(w, b);
      StayKeeps(w, b, Acking(Current(BotOf(w, b)).0, Event(w.txns[KeyOf(r.value)]), Current(BotOf(w, b)).1));
    }
  }

  lemma RejectKeeps(w: World, b: Sender)
    requires Inv(w)
    ensures Inv(Step(w, RejectUnknown(b)))
  {
    hide Inv;
    var r, bot := Wanted(w, b), BotOf(w, b);
    if r.Some? && bot.Working? && bot.items[0].kind == Message && r.value in w.requests && KeyOf(r.value) !in w.txns {
      BotIsOk(w, b);
      MoveKeeps(w, b, Falling(bot.items[0], bot.items[1..]), bot.items[0].id);
    }
  }

  lemma PinKeeps(w: World, b: Sender)
    requires Inv(w)
    ensures Inv(Step(w, PinDone(b))) && Inv(Step(w, PinFail(b)))
  {
    hide Inv;
    var bot := BotOf(w, b);
    if bot.Working? && bot.items != [] && bot.items[0].kind in {Pin, Unpin} {
      BotIsOk(w, b);
      assert ItemOk(w, b, bot.items[0]);
      SentBefore(w, w.rows[bot.items[0].id].target);
      StayKeeps(w, b, Acking(bot.items[0].id, bot.items[0].target, bot.items[1..]));
      StayKeeps(w, b, Working(bot.items[1..]));
    }
  }

  lemma AckKeeps(w: World, b: Sender)
    requires Inv(w)
    ensures Inv(Step(w, SendAck(b))) && Inv(Step(w, AckDone(b)))
  {
    hide Inv, SentOk, ItemOk, RowOk, EntryOk, TxnOk, RequestOk;
    var bot := BotOf(w, b);
    if bot.Acking? {
      BotIsOk(w, b);
      StayKeeps(w, b, Working(bot.rest));
      var w' := Step(w, SendAck(b));
      NoEmptyId(w);
      SentStays(w, w', bot.id, bot.ev);
      Settle(w, w');
    }
  }

  lemma ServeAckKeeps(w: World, ack: Ack)
    requires Inv(w)
    ensures Inv(Step(w, ServeAck(ack)))
  {
    hide SentOk, EntryOk, TxnOk, RequestOk, BotOk;
    if ack in w.acks && ack.id in w.rows && w.rows[ack.id].sent.None? {
      var w' := Step(w, ServeAck(ack));
      assert RowOk(w, ack.id);
      NoEmptyId(w);
      SentStays(w, w', ack.id, ack.ev);
      assert RowOk(w', ack.id);
      hide Inv, RowOk;
      Settle(w, w');
    }
  }

  lemma OtherPostKeeps(w: World)
    requires Inv(w)
    ensures Inv(Step(w, OtherPost))
  {
    hide BotOk, Inv, RowOk, TxnOk, RequestOk, SentOk;
    Settle(w, Step(w, OtherPost));
  }

  lemma StepKeeps(w: World, a: Action)
    requires Inv(w) && (a.Enqueue? ==> GoodId(a.id))
    ensures Inv(Step(w, a))
  {
    hide Inv;
    match a
    case Enqueue(id, row) => EnqueueKeeps(w, id, row);
    case Poll(b, limit) => PolledItems(w, b, limit); StayKeeps(w, b, Working(PendingMatrix(w.rows, b, limit)));
    case Issue(b) => IssueKeeps(w, b);
    case Serve(req) => ServeKeeps(w, req);
    case Receive(b) => ReceiveKeeps(w, b);
    case RejectUnknown(b) => RejectKeeps(w, b);
    case PinDone(b) => PinKeeps(w, b);
    case PinFail(b) => PinKeeps(w, b);
    case SendAck(b) => AckKeeps(w, b);
    case ServeAck(ack) => ServeAckKeeps(w, ack);
    case AckDone(b) => AckKeeps(w, b);
    case CycleDone(b) => StayKeeps(w, b, Idle);
    case Drop(b) => StayKeeps(w, b, Idle);
    case OtherPost => OtherPostKeeps(w);
  }

  lemma {:induction false} RunKeeps(w: World, actions: seq<Action>)
    requires Inv(w) && GoodActions(actions)
    ensures Inv(Run(w, actions))
    decreases |actions|
  {
    hide Inv, Step;
    if actions != [] {
      assert actions[0] in actions;
      StepKeeps(w, actions[0]);
      RunKeeps(Step(w, actions[0]), actions[1..]);
    }
  }

  lemma Reachable(actions: seq<Action>)
    requires GoodActions(actions)
    ensures Inv(Run(INITIAL, actions))
  {
    hide Run;
    assert Inv(INITIAL);
    RunKeeps(INITIAL, actions);
  }

  // ----- main results -----

  /** A notification has at most one room event and at most one fallback event; without a refusal by the server
      for an unknown event it has at most one of the two. */
  lemma AtMostOneEvent(actions: seq<Action>, id: string, i: nat, j: nat)
    requires GoodActions(actions)
    requires var w := Run(INITIAL, actions);
             i < j < |w.log| && w.log[i].FromBot? && w.log[j].FromBot? && w.log[i].req.origin == w.log[j].req.origin == id
    ensures var w := Run(INITIAL, actions);
            w.log[i].req.fallback != w.log[j].req.fallback && id in w.rejected
  {
    hide Run;
    Reachable(actions);
    var w := Run(INITIAL, actions);
    assert EntryOk(w, i) && EntryOk(w, j);
  }

  /** The stored event id is that of an event sent for this notification, to its room, by its sender;
      a pin's is that of the event it pins. */
  lemma SentEventIsOwn(actions: seq<Action>, id: string)
    requires GoodActions(actions)
    requires var w := Run(INITIAL, actions); id in w.rows && w.rows[id].sent.Some?
    ensures var w := Run(INITIAL, actions);
            var row := w.rows[id];
            if row.kind in {Message, Edit} then row.sent.value.Event? && PostedFor(w, row.sent.value.index, id)
            else row.sent.value == SentAs(w.rows, row.target)
  {
    hide Run;
    Reachable(actions);
    assert RowOk(Run(INITIAL, actions), id);
  }

  lemma StepExtends(w: World, a: Action)
    requires a.Enqueue? ==> GoodId(a.id)
    ensures Extends(w, Step(w, a))
  {
    hide PendingMatrix;
  }

  lemma ExtendsTransitive(u: World, v: World, w: World)
    requires Extends(u, v) && Extends(v, w)
    ensures Extends(u, w)
  {
  }

  /** From any state on, every row keeps what it was enqueued with, a stored event id is never overwritten,
      and no event leaves the history. */
  lemma {:induction false} WrittenOnce(w: World, actions: seq<Action>)
    requires GoodActions(actions)
    ensures Extends(w, Run(w, actions))
    decreases |actions|
  {
    hide Step;
    if actions != [] {
      assert actions[0] in actions;
      StepExtends(w, actions[0]);
      WrittenOnce(Step(w, actions[0]), actions[1..]);
      hide Extends;
      ExtendsTransitive(w, Step(w, actions[0]), Run(w, actions));
    }
  }

  // ----- what a poll hands out -----

  predicate IsSent(rows: Rows, id: string) { id in rows && rows[id].sent.Some? }

  /** A row of this sender that was not sent, while what it refers to was. */
  predicate MayGo(rows: Rows, b: Sender, id: string) {
    && id in rows && rows[id].sender == b && !IsSent(rows, id)
    && (rows[id].thread != "" ==> IsSent(rows, rows[id].thread))
    && (rows[id].target != "" ==> IsSent(rows, rows[id].target))
  }

  /** Queued earlier, or at the same time under a smaller id. */
  predicate Earlier(rows: Rows, a: string, b: string)
    requires a in rows && b in rows
  {
    rows[a].createdAt < rows[b].createdAt || (rows[a].createdAt == rows[b].createdAt && Less(a, b))
  }

  /** An item says what its row says, with the events its references were sent as. */
  predicate Tells(rows: Rows, item: Item)
    requires item.id in rows
  {
    var row := rows[item.id];
    && item.room == row.room && item.body == row.body && item.kind == row.kind
    && (row.threadRoot != NoEvent ==> item.threadRoot == row.threadRoot)
    && (row.threadRoot == NoEvent && IsSent(rows, row.thread) ==> item.threadRoot == rows[row.thread].sent.value)
    && (IsSent(rows, row.target) ==> item.target == rows[row.target].sent.value)
    && (row.threadRoot == NoEvent && row.thread !in rows ==> item.threadRoot == NoEvent)
    && (row.target !in rows ==> item.target == NoEvent)
  }

  /** A page of rows that may go: in order, none twice, and short only when it has them all. */
  ghost predicate FirstIds(rows: Rows, b: Sender, limit: nat, ids: seq<string>) {
    && |ids| <= limit
    && (forall i | 0 <= i < |ids| :: MayGo(rows, b, ids[i]))
    && (forall i, j | 0 <= i < j < |ids| :: Earlier(rows, ids[i], ids[j]))
    && (forall id | MayGo(rows, b, id) && id !in ids ::
          |ids| == limit && forall i | 0 <= i < |ids| :: Earlier(rows, ids[i], id))
  }

  ghost predicate FirstPage(rows: Rows, b: Sender, limit: nat, items: seq<Item>) {
    && FirstIds(rows, b, limit, seq(|items|, i requires 0 <= i < |items| => items[i].id))
    && forall i | 0 <= i < |items| :: items[i].id in rows && Tells(rows, items[i])
  }

  lemma DueMeans(rows: Rows, b: Sender)
    ensures forall id :: id in Due(rows, b) <==> MayGo(rows, b, id)
    ensures forall id | id in Due(rows, b) :: id in rows
    ensures forall x, y | x in Due(rows, b) && y in Due(rows, b) ::
              Ordering.Before(Due(rows, b), x, y) <==> Earlier(rows, x, y)
  {
  }

  lemma SelectsFirst(rows: Rows, b: Sender, limit: nat)
    ensures FirstIds(rows, b, limit, Select(Due(rows, b), limit))
    ensures forall i | 0 <= i < |Select(Due(rows, b), limit)| :: Select(Due(rows, b), limit)[i] in rows
  {
    var due := Due(rows, b);
    var ids := Select(due, limit);
    DueMeans(rows, b);
    hide Due, Select, MayGo, Earlier, Ordering.Before;
    SelectIsOrdered(due, limit);
    forall id | id in due && id !in ids ensures |ids| == limit && forall i | 0 <= i < limit :: Earlier(rows, ids[i], id) {
      SelectIsComplete(due, limit, id);
      assert forall i | 0 <= i < limit :: Ordering.Before(due, ids[i], id);
    }
  }

  /** A poll hands out the first rows that may go. */
  lemma PollIsFirstPage(rows: Rows, b: Sender, limit: nat)
    ensures FirstPage(rows, b, limit, PendingMatrix(rows, b, limit))
  {
    var items, ids := PendingMatrix(rows, b, limit), Select(Due(rows, b), limit);
    SelectsFirst(rows, b, limit);
    hide Due, Select, FirstIds, Tells;
    forall i | 0 <= i < |items| ensures items[i].id == ids[i] && items[i].id in rows && Tells(rows, items[i]) {
      ItemTells(rows, ids[i]);
    }
    assert seq(|items|, i requires 0 <= i < |items| => items[i].id) == ids;
  }

  lemma ItemTells(rows: Rows, id: string)
    requires id in rows
    ensures Tells(rows, ItemOf(rows, id))
  {
  }

  /** Once a row is acknowledged no later poll, after any continuation, hands it out. */
  lemma SentIsOver(w: World, actions: seq<Action>, id: string, b: Sender, limit: nat, i: nat)
    requires GoodActions(actions) && IsSent(w.rows, id)
    requires i < |PendingMatrix(Run(w, actions).rows, b, limit)|
    ensures PendingMatrix(Run(w, actions).rows, b, limit)[i].id != id
  {
    hide Run, PendingMatrix;
    WrittenOnce(w, actions);
    PollIsFirstPage(Run(w, actions).rows, b, limit);
    var items := PendingMatrix(Run(w, actions).rows, b, limit);
    assert MayGo(Run(w, actions).rows, b, seq(|items|, j requires 0 <= j < |items| => items[j].id)[i]);
  }

  /** What a sent event refers to through the outbox, its thread parent or the message it edits, is the event
      its own notification was sent as, earlier in the history. */
  lemma ReferencesComeFirst(actions: seq<Action>, i: nat)
    requires GoodActions(actions)
    requires var w := Run(INITIAL, actions); i < |w.log| && w.log[i].FromBot? && !w.log[i].req.fallback
    ensures var w := Run(INITIAL, actions);
            var r := w.log[i].req;
            && r.origin in w.rows
            && var row := w.rows[r.origin];
               && (row.kind == Edit && row.target != "" ==>
                     row.target in w.rows && w.rows[row.target].sent == Some(r.edits) && Before(r.edits, i)
                     && (w.rows[row.target].kind in {Message, Edit} ==> r.edits.Event? && PostedFor(w, r.edits.index, row.target)))
               && (row.kind == Message && row.thread != "" && row.threadRoot == NoEvent ==>
                     row.thread in w.rows && w.rows[row.thread].sent == Some(r.thread) && Before(r.thread, i)
                     && (w.rows[row.thread].kind in {Message, Edit} ==> r.thread.Event? && PostedFor(w, r.thread.index, row.thread)))
  {
    hide Run;
    Reachable(actions);
    var w := Run(INITIAL, actions);
    var r := w.log[i].req;
    assert EntryOk(w, i);
    var row := w.rows[r.origin];
    if row.target != "" { assert RowOk(w, row.target); }
    if row.thread != "" { assert RowOk(w, row.thread); }
  }

  // ----- the fallback can double a message -----

  lemma PollOne(rows: Rows, id: string, b: Sender)
    requires rows.Keys == {id} && rows[id].sent.None? && Released(rows, rows[id]) && rows[id].sender == b
    ensures PendingMatrix(rows, b, 20) == [ItemOf(rows, id)]
  {
    var times := Due(rows, b);
    assert times.Keys == {id};
    var ids := Select(times, 20);
    assert forall i | 0 <= i < |ids| :: ids[i] in times && ids[i] == id;
  }

  /** The bot takes the only notification and is told that it refers to an unknown event. */
  lemma FirstTry(w: World, item: Item)
    requires w.rows.Keys == {item.id} && item == ItemOf(w.rows, item.id) && item.kind == Message
    requires w.rows[item.id].sent.None? && Released(w.rows, w.rows[item.id]) && w.rows[item.id].sender == Gateway
    requires BotOf(w, Gateway) == Idle && KeyOf(Normal(Gateway, item)) !in w.txns
    ensures Step(Step(Step(w, Poll(Gateway, 20)), Issue(Gateway)), RejectUnknown(Gateway))
         == w.(bots := w.bots[Gateway := Falling(item, [])], requests := w.requests + {Normal(Gateway, item)},
               rejected := w.rejected + {item.id})
  {
    hide PendingMatrix;
    PollOne(w.rows, item.id, Gateway);
    var v := Set(w, Gateway, Working([item]));
    assert Step(w, Poll(Gateway, 20)) == v;
    var u := Step(v, Issue(Gateway));
    assert u == v.(requests := w.requests + {Normal(Gateway, item)});
    assert [item][1..] == [];
    assert Step(u, RejectUnknown(Gateway)).bots == w.bots[Gateway := Falling(item, [])];
  }

  /** It posts the fallback, and stops before it is acknowledged. */
  lemma FallbackLost(w: World, item: Item)
    requires BotOf(w, Gateway) == Falling(item, []) && KeyOf(Fallback(Gateway, item)) !in w.txns
    ensures var r := Fallback(Gateway, item);
            var w' := w.(bots := w.bots[Gateway := Idle], requests := w.requests + {r}, log := w.log + [FromBot(r)],
                         txns := w.txns[KeyOf(r) := |w.log|]);
            Step(Step(Step(w, Issue(Gateway)), Serve(r)), Drop(Gateway)) == w'
  {
  }

  /** The next poll finds the row pending again, and by now the server knows the event. */
  lemma SecondTry(w: World, item: Item)
    requires w.rows.Keys == {item.id} && item == ItemOf(w.rows, item.id) && item.kind == Message
    requires w.rows[item.id].sent.None? && Released(w.rows, w.rows[item.id]) && w.rows[item.id].sender == Gateway
    requires BotOf(w, Gateway) == Idle && KeyOf(Normal(Gateway, item)) !in w.txns
    ensures Step(Step(Step(w, Poll(Gateway, 20)), Issue(Gateway)), Serve(Normal(Gateway, item))).log
         == w.log + [FromBot(Normal(Gateway, item))]
  {
    hide PendingMatrix;
    PollOne(w.rows, item.id, Gateway);
    assert Step(w, Poll(Gateway, 20)) == Set(w, Gateway, Working([item]));
  }

  lemma RunNext(w: World, a: Action, rest: seq<Action>)
    ensures Run(w, [a] + rest) == Run(Step(w, a), rest)
  {
    assert ([a] + rest)[1..] == rest;
  }

  lemma RunThree(w: World, a: Action, b: Action, c: Action, rest: seq<Action>)
    ensures Run(w, [a, b, c] + rest) == Run(Step(Step(Step(w, a), b), c), rest)
  {
    hide Step;
    RunNext(w, a, [b, c] + rest);
    RunNext(Step(w, a), b, [c] + rest);
    RunNext(Step(Step(w, a), b), c, rest);
    assert [a, b, c] + rest == [a] + ([b, c] + rest) && [b, c] + rest == [b] + ([c] + rest);
  }

  lemma TwoTries(w: World, item: Item)
    requires w.rows.Keys == {item.id} && item == ItemOf(w.rows, item.id) && item.kind == Message
    requires w.rows[item.id].sent.None? && Released(w.rows, w.rows[item.id]) && w.rows[item.id].sender == Gateway
    requires BotOf(w, Gateway) == Idle && w.txns == map[] && w.log == []
    ensures Run(w, Tries(item)).log == [FromBot(Fallback(Gateway, item)), FromBot(Normal(Gateway, item))]
  {
    hide Step, Run, PendingMatrix, Due;
    var n, r := Normal(Gateway, item), Fallback(Gateway, item);
    FirstTry(w, item);
    var w4 := Step(Step(Step(w, Poll(Gateway, 20)), Issue(Gateway)), RejectUnknown(Gateway));
    FallbackLost(w4, item);
    var w7 := Step(Step(Step(w4, Issue(Gateway)), Serve(r)), Drop(Gateway));
    assert |TxnId(r)| != |TxnId(n)|;
    SecondTry(w7, item);
    var last := [Poll(Gateway, 20), Issue(Gateway), Serve(n)] + [];
    var middle := [Issue(Gateway), Serve(r), Drop(Gateway)] + last;
    RunThree(w, Poll(Gateway, 20), Issue(Gateway), RejectUnknown(Gateway), middle);
    RunThree(w4, Issue(Gateway), Serve(r), Drop(Gateway), last);
    RunThree(w7, Poll(Gateway, 20), Issue(Gateway), Serve(n), []);
    RunNone(Step(Step(Step(w7, Poll(Gateway, 20)), Issue(Gateway)), Serve(n)));
  }

  lemma RunNone(w: World)
    ensures Run(w, []) == w
  {
  }

  function Tries(item: Item): seq<Action> {
    [Poll(Gateway, 20), Issue(Gateway), RejectUnknown(Gateway)]
    + ([Issue(Gateway), Serve(Fallback(Gateway, item)), Drop(Gateway)]
       + ([Poll(Gateway, 20), Issue(Gateway), Serve(Normal(Gateway, item))] + []))
  }

  /** After a refusal the one message can be posted twice: the fallback first, then the message itself. */
  lemma FallbackCanDuplicate(row: Row) returns (actions: seq<Action>)
    requires row.kind == Message && row.sender == Gateway && row.thread == "" && row.target == ""
    ensures GoodActions(actions)
    ensures var w := Run(INITIAL, actions);
            |w.log| == 2 && w.log[0].FromBot? && w.log[1].FromBot? && w.log[0].req.origin == w.log[1].req.origin == "n"
  {
    hide PendingMatrix, Due;
    var w1 := INITIAL.(rows := map["n" := row.(sent := None)]);
    var item := ItemOf(w1.rows, "n");
    assert Step(INITIAL, Enqueue("n", row)) == w1;
    hide Step;
    TwoTries(w1, item);
    actions := [Enqueue("n", row)] + Tries(item);
    RunNext(INITIAL, Enqueue("n", row), Tries(item));
  }
}
