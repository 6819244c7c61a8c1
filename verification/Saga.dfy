/**
 * The purchase saga as a state machine: two databases, two at-least-once queues, and every
 * code path as one atomic step. A run is any sequence of attempted steps.
 */
module Saga {
  import opened Common
  import opened SagaTypes
  import opened Messaging
  import Inventory
  import Orders

  /**
   * Which stock object drives the consumer: the repository itself, or the retrying wrapper, which has no release
   * method.
   */
  datatype Wiring = Bare | Resilient

  // ---- message handlers -----------------------------------------------------

  /** The items that name a product. */
  function Lines(items: seq<Line>): seq<Line> {
    if items == [] then []
    else
      var last := items[|items| - 1];
      Lines(items[..|items| - 1]) + (if last.productId == "" then [] else [last])
  }

  /** What the inventory consumer does with one command, and whether the message may be deleted. */
  function HandleCommand(w: Wiring, db: Inventory.Db, m: Message, now: int): (Inventory.Db, bool) {
    match m.body
    case CancelRequested(o, _, _, _) =>
      if w == Resilient then (db, false) else (Inventory.Release(db, o, now).0, true)
    case OrderCreated(o, _, _, items) =>
      var (db', att) := Inventory.ProcessOrder(db, m.eventId, o, Lines(items), now);
      (db', att.Returned?)
    case FulfilmentChanged(_, _, _, _) => (db, true)
  }

  function TargetStatus(v: Verdict): Status {
    match v
    case OrderConfirmed => Confirmed
    case OrderRejected => Rejected
    case OrderCancelled => Cancelled
  }

  function SourceStatus(v: Verdict): Status {
    if v == OrderCancelled then CancelPending else Pending
  }

  /** What the compensation consumer does with one outcome. */
  function HandleOutcome(db: Orders.Db, e: Outcome, now: int): (Orders.Db, bool) {
    var (db', r) := Orders.SetStatus(
      db, e.orderId, TargetStatus(e.verdict), e.reason, Orders.Only(SourceStatus(e.verdict)), now);
    (db', r != Orders.NotFound)
  }

  // ---- state and steps ------------------------------------------------------

  /**
   * `relay` and `commands` carry order-outbox rows to inventory, `publisher` and `outcomes` carry verdicts back.
   * `seen` holds every order row any task ever read; `history` only records what happened.
   */
  datatype State = State(
    od: Orders.Db,
    seen: set<(OrderId, Orders.Order)>,
    relay: Workers<Message>,
    commands: Queue<Message>,
    inv: Inventory.Db,
    publisher: Workers<Outcome>,
    outcomes: Queue<Outcome>,
    history: History)

  /** Stock ever supplied per product, and the committed prefix of each rejected order. */
  datatype History = History(supply: map<ProductId, int>, leaks: map<OrderId, seq<Line>>)

  /** What customers and admins do to an order. */
  datatype OrderAction =
    | Place(o: OrderId, user: UserId, email: Option<string>, items: seq<Line>, now: int)
    | Read(o: OrderId)
    | Advance(o: OrderId, read: Orders.Order, target: Fulfilment, now: int)
    | Cancel(o: OrderId, read: Orders.Order, user: UserId, email: Option<string>, now: int)

  /** A worker of the order-outbox relay. */
  datatype RelayAction =
    | RelayRead(k: EventId)
    | RelaySend(m: Message)
    | RelayMark(m: Message)
    | RelayCrash(m: Message, sent: bool)

  /** The command queue and its consumer. */
  datatype CommandAction =
    | TakeCommand(m: Message, now: int)
    | DeleteCommand(m: Message)
    | RedeliverCommand(m: Message)

  /** A worker of the inventory-outbox relay. */
  datatype PublishAction =
    | OutRead(id: OutcomeId)
    | OutSend(e: Outcome)
    | OutMark(e: Outcome)
    | OutCrash(e: Outcome, sent: bool)

  /** The outcome queue and its consumer. */
  datatype OutcomeAction =
    | TakeOutcome(e: Outcome, now: int)
    | DeleteOutcome(e: Outcome)
    | RedeliverOutcome(e: Outcome)

  datatype Action =
    | OnOrder(order: OrderAction)
    | OnRelay(relay: RelayAction)
    | OnCommand(command: CommandAction)
    | OnPublish(publish: PublishAction)
    | OnOutcome(outcome: OutcomeAction)
    | Adjust(p: ProductId, quantity: int)

  function Init(stock: Inventory.Stock): State {
    State(Orders.Db(map[], map[]), {}, Workers(multiset{}, multiset{}), Queue(multiset{}, multiset{}, {}),
          Inventory.Db(stock, {}, map[], map[]), Workers(multiset{}, multiset{}), Queue(multiset{}, multiset{}, {}),
          History(stock, map[]))
  }

  function Announcement(db: Inventory.Db, id: OutcomeId): Outcome
    requires id in db.outbox
  {
    Outcome(id, db.outbox[id].verdict, db.outbox[id].orderId, db.outbox[id].reason)
  }

  /** The committed prefix of a rejection, recorded when it happens. */
  function NoteLeak(h: History, inv: Inventory.Db, m: Message, now: int): History {
    if m.body.OrderCreated? && m.eventId !in inv.processed then
      var lines := Lines(m.body.items);
      if Inventory.Refusal(inv.stock, lines) != None
         && Inventory.ProcessOrder(inv, m.eventId, m.body.orderId, lines, now).1 != Inventory.Raised
      then h.(leaks := h.leaks[m.body.orderId := Inventory.Leaked(inv, m.eventId, m.body.orderId, lines, now)])
      else h
    else h
  }

  // Each step is an attempt: when it is not enabled it changes nothing.

  /** The order service commits an order together with its command row. */
  function PlaceStep(s: State, o: OrderId, user: UserId, email: Option<string>, items: seq<Line>, now: int): State {
    var placed := Orders.PutWithCommand(s.od, o, user, email, items, now);
    if placed == None then s else s.(od := placed.value)
  }

  function ReadStep(s: State, o: OrderId): State {
    if o in s.od.orders then s.(seen := s.seen + {(o, s.od.orders[o])}) else s
  }

  /** An admin progresses fulfilment, from a read made at any earlier time by that task. */
  function AdvanceStep(s: State, o: OrderId, read: Orders.Order, target: Fulfilment, now: int): State {
    var from := Orders.Predecessor(target);
    if (o, read) in s.seen && from != None
    then s.(od := Orders.WriteFulfilment(s.od, o, read, from.value, target, now).0) else s
  }

  /** A customer asks for cancellation, again from an earlier read. */
  function CancelStep(s: State, o: OrderId, read: Orders.Order, user: UserId, email: Option<string>, now: int): State {
    if (o, read) in s.seen then s.(od := Orders.WriteCancellation(s.od, o, read, user, email, now).0) else s
  }

  function OrderStep(s: State, a: OrderAction): State {
    match a
    case Place(o, user, email, items, now) => PlaceStep(s, o, user, email, items, now)
    case Read(o) => ReadStep(s, o)
    case Advance(o, read, target, now) => AdvanceStep(s, o, read, target, now)
    case Cancel(o, read, user, email, now) => CancelStep(s, o, read, user, email, now)
  }

  /**
   * A relay worker finds a row still PENDING; sends its message, unless the row goes to the event bus, which
   * this state does not track; marks the row DELIVERED on condition that it is still PENDING; or dies on the way.
   */
  function RelayStep(s: State, a: RelayAction): State {
    match a
    case RelayRead(k) =>
      if k in s.od.outbox && !s.od.outbox[k].delivered
      then s.(relay := s.relay.Check(Message(k, s.od.outbox[k].payload))) else s
    case RelaySend(m) =>
      if m !in s.relay.read then s
      else s.(relay := s.relay.Send(m), commands := if m.eventId.FulfilmentId? then s.commands else s.commands.Put(m))
    case RelayMark(m) =>
      if m in s.relay.sent then s.(relay := s.relay.LeaveSent(m), od := Orders.MarkDelivered(s.od, m.eventId)) else s
    case RelayCrash(m, sent) =>
      s.(relay := if sent then s.relay.LeaveSent(m) else s.relay.LeaveRead(m))
  }

  /** The inventory consumer handles a queued command; a handler failure is a step that is not taken. */
  function TakeCommandStep(w: Wiring, s: State, m: Message, now: int): State {
    if m !in s.commands.messages then s
    else
      var (db, ack) := HandleCommand(w, s.inv, m, now);
      s.(inv := db, history := NoteLeak(s.history, s.inv, m, now),
         commands := if ack then s.commands.Ack(m) else s.commands)
  }

  function CommandStep(w: Wiring, s: State, a: CommandAction): State {
    match a
    case TakeCommand(m, now) => TakeCommandStep(w, s, m, now)
    case DeleteCommand(m) => s.(commands := s.commands.Delete(m))
    case RedeliverCommand(m) => s.(commands := s.commands.Redeliver(m))
  }

  /** A worker of the inventory relay, in the same four moves. */
  function PublishStep(s: State, a: PublishAction): State {
    match a
    case OutRead(id) =>
      if id in s.inv.outbox && !s.inv.outbox[id].published
      then s.(publisher := s.publisher.Check(Announcement(s.inv, id))) else s
    case OutSend(e) =>
      if e !in s.publisher.read then s
      else s.(publisher := s.publisher.Send(e), outcomes := s.outcomes.Put(e))
    case OutMark(e) =>
      if e in s.publisher.sent
      then s.(publisher := s.publisher.LeaveSent(e), inv := Inventory.MarkPublished(s.inv, e.id)) else s
    case OutCrash(e, sent) =>
      s.(publisher := if sent then s.publisher.LeaveSent(e) else s.publisher.LeaveRead(e))
  }

  /** The compensation consumer applies a queued outcome. */
  function TakeOutcomeStep(s: State, e: Outcome, now: int): State {
    if e !in s.outcomes.messages then s
    else
      var (db, ack) := HandleOutcome(s.od, e, now);
      s.(od := db, outcomes := if ack then s.outcomes.Ack(e) else s.outcomes)
  }

  function OutcomeStep(s: State, a: OutcomeAction): State {
    match a
    case TakeOutcome(e, now) => TakeOutcomeStep(s, e, now)
    case DeleteOutcome(e) => s.(outcomes := s.outcomes.Delete(e))
    case RedeliverOutcome(e) => s.(outcomes := s.outcomes.Redeliver(e))
  }

  function ValueOr(m: map<ProductId, int>, p: ProductId): int {
    if p in m then m[p] else 0
  }

  /** The admin sets an absolute stock level. */
  function AdjustStep(s: State, p: ProductId, q: int): State {
    if q < 0 then s
    else s.(inv := s.inv.(stock := s.inv.stock[p := q]),
            history := s.history.(
              supply := s.history.supply[p := ValueOr(s.history.supply, p) + q - ValueOr(s.inv.stock, p)]))
  }

  function Apply(w: Wiring, s: State, a: Action): State {
    match a
    case OnOrder(x) => OrderStep(s, x)
    case OnRelay(x) => RelayStep(s, x)
    case OnCommand(x) => CommandStep(w, s, x)
    case OnPublish(x) => PublishStep(s, x)
    case OnOutcome(x) => OutcomeStep(s, x)
    case Adjust(p, q) => AdjustStep(s, p, q)
  }

  /** The state after a run of attempted steps. */
  function Exec(w: Wiring, s: State, run: seq<Action>): State {
    if run == [] then s else Apply(w, Exec(w, s, run[..|run| - 1]), run[|run| - 1])
  }

  lemma ExecOne(w: Wiring, s: State, run: seq<Action>, a: Action)
    ensures Exec(w, s, run + [a]) == Apply(w, Exec(w, s, run), a)
  {
    assert (run + [a])[..|run|] == run;
  }

  /** A run can be taken up where it was left. */
  lemma {:induction false} ExecConcat(w: Wiring, s: State, run: seq<Action>, more: seq<Action>)
    ensures Exec(w, s, run + more) == Exec(w, Exec(w, s, run), more)
  {
    if more == [] {
      assert run + more == run;
    } else {
      var front, last := more[..|more| - 1], more[|more| - 1];
      ExecConcat(w, s, run, front);
      assert run + more == run + front + [last] && more == front + [last];
      ExecOne(w, s, run + front, last);
      ExecOne(w, Exec(w, s, run), front, last);
    }
  }

  // ---- what each group of steps leaves alone --------------------------------

  lemma OrderFrame(s: State, a: OrderAction)
    ensures var t := OrderStep(s, a);
            t == State(t.od, t.seen, s.relay, s.commands, s.inv, s.publisher, s.outcomes, s.history)
  {
  }

  lemma RelayFrame(s: State, a: RelayAction)
    ensures var t := RelayStep(s, a);
            t == State(t.od, s.seen, t.relay, t.commands, s.inv, s.publisher, s.outcomes, s.history)
    ensures RelayStep(s, a).od ==
            if a.RelayMark? && a.m in s.relay.sent then Orders.MarkDelivered(s.od, a.m.eventId) else s.od
  {
  }

  lemma CommandFrame(w: Wiring, s: State, a: CommandAction)
    ensures var t := CommandStep(w, s, a);
            t == State(s.od, s.seen, s.relay, t.commands, t.inv, s.publisher, s.outcomes, t.history)
    ensures var t := CommandStep(w, s, a);
            if a.TakeCommand? && a.m in s.commands.messages
            then t.inv == HandleCommand(w, s.inv, a.m, a.now).0 && t.history == NoteLeak(s.history, s.inv, a.m, a.now)
            else t.inv == s.inv && t.history == s.history
  {
  }

  lemma PublishFrame(s: State, a: PublishAction)
    ensures var t := PublishStep(s, a);
            t == State(s.od, s.seen, s.relay, s.commands, t.inv, t.publisher, t.outcomes, s.history)
    ensures PublishStep(s, a).inv ==
            if a.OutMark? && a.e in s.publisher.sent then Inventory.MarkPublished(s.inv, a.e.id) else s.inv
  {
  }

  lemma OutcomeFrame(s: State, a: OutcomeAction)
    ensures var t := OutcomeStep(s, a);
            t == State(t.od, s.seen, s.relay, s.commands, s.inv, s.publisher, t.outcomes, s.history)
    ensures OutcomeStep(s, a).od ==
            if a.TakeOutcome? && a.e in s.outcomes.messages then HandleOutcome(s.od, a.e, a.now).0 else s.od
  {
  }
}
