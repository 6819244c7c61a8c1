/** The inductive invariant of the saga, and the proof that every step keeps it. */
module SagaInvariant {
  import opened Common
  import opened SagaTypes
  import opened Messaging
  import opened Saga
  import Inventory
  import Orders

  function Decision(o: OrderId): OutcomeId { DecisionId(CreatedId(o)) }

  /** A row of the order outbox that goes to the command queue is covered until its command has taken effect. */
  ghost predicate Relayed(od: Orders.Db, w: Workers<Message>, q: Queue<Message>, k: EventId, handled: bool) {
    k in od.outbox ==> Covered(od.outbox[k].delivered, Message(k, od.outbox[k].payload), w, q, handled)
  }

  /** A row of the inventory outbox is covered until its outcome has been applied to the order. */
  ghost predicate Announced(inv: Inventory.Db, w: Workers<Outcome>, q: Queue<Outcome>, id: OutcomeId, applied: bool) {
    id in inv.outbox ==> Covered(inv.outbox[id].published, Announcement(inv, id), w, q, applied)
  }

  /** The outbox rows of an order are exactly the events of its history. */
  ghost predicate Mirrored(od: Orders.Db, o: OrderId) {
    && (CreatedId(o) in od.outbox <==> o in od.orders)
    && (CancelId(o) in od.outbox <==> o in od.orders && od.orders[o].status in {CancelPending, Cancelled})
    && (forall f :: FulfilmentId(o, f) in od.outbox <==>
          o in od.orders && 0 < f.Rank() <= od.orders[o].fulfilment.Rank())
    && (CreatedId(o) in od.outbox ==>
          var p := od.outbox[CreatedId(o)].payload;
          p.OrderCreated? && p.orderId == o && p.items == od.orders[o].items)
    && (CancelId(o) in od.outbox ==>
          var p := od.outbox[CancelId(o)].payload;
          p.CancelRequested? && p.orderId == o && p.items == od.orders[o].items)
  }

  /** The ledger rows of an order are its lines, all RESERVED or all RELEASED. */
  ghost predicate LedgerMatches(rows: Inventory.Rows, lines: seq<Line>, released: bool) {
    && lines != [] && Inventory.Insertable(map[], lines)
    && rows == if released then Inventory.AllReleased(Inventory.NewRows(lines)) else Inventory.NewRows(lines)
  }

  /** The reason of a rejection names the line after those that were taken. */
  predicate Names(reason: Option<Reason>, lines: seq<Line>, taken: seq<Line>) {
    if |taken| < |lines| then
      reason == Some(Insufficient(lines[|taken|].productId)) || reason == Some(Unknown(lines[|taken|].productId))
    else reason == Some(NoItems)
  }

  /** What inventory has recorded about an order. */
  ghost predicate Decided(od: Orders.Db, inv: Inventory.Db, leaks: map<OrderId, seq<Line>>, o: OrderId) {
    var d, r := Decision(o), ReleasedId(o);
    && (CreatedId(o) in inv.processed <==> d in inv.outbox)
    && (d in inv.outbox ==>
          && o in od.orders
          && inv.outbox[d].orderId == o
          && inv.outbox[d].verdict in {OrderConfirmed, OrderRejected}
          && (inv.outbox[d].verdict == OrderConfirmed <==> inv.outbox[d].reason == None))
    && (o in inv.ledger <==> d in inv.outbox && inv.outbox[d].verdict == OrderConfirmed)
    && (o in leaks <==> d in inv.outbox && inv.outbox[d].verdict == OrderRejected)
    && (o in leaks ==> leaks[o] < Lines(od.orders[o].items) || leaks[o] == Lines(od.orders[o].items) == [])
    && (o in leaks ==> Names(inv.outbox[d].reason, Lines(od.orders[o].items), leaks[o]))
    && (o in inv.ledger ==> LedgerMatches(inv.ledger[o], Lines(od.orders[o].items), r in inv.outbox))
    && (r in inv.outbox ==>
          && inv.outbox[r].verdict == OrderCancelled && inv.outbox[r].orderId == o && inv.outbox[r].reason == None
          && o in inv.ledger && CancelId(o) in od.outbox)
  }

  /** The order row agrees with what inventory decided. */
  ghost predicate Agreed(od: Orders.Db, inv: Inventory.Db, o: OrderId) {
    o in od.orders ==>
      var row, d := od.orders[o], Decision(o);
      && (row.status == Pending ==> row.reason == None)
      && (row.status in {Confirmed, CancelPending, Cancelled} ==> o in inv.ledger && row.reason == None)
      && (row.status == Rejected ==>
            d in inv.outbox && inv.outbox[d].verdict == OrderRejected && row.reason == inv.outbox[d].reason)
      && (row.status == Cancelled ==> ReleasedId(o) in inv.outbox)
      && (row.status in {Pending, Rejected} ==> row.fulfilment == NotStarted)
      && (row.status in {CancelPending, Cancelled} ==> row.fulfilment in {NotStarted, Packing})
  }

  ghost predicate StatusIs(od: Orders.Db, o: OrderId, status: Status) {
    o in od.orders && od.orders[o].status == status
  }

  ghost predicate StatusPassed(od: Orders.Db, o: OrderId, status: Status) {
    o in od.orders && od.orders[o].status != status
  }

  ghost predicate OrderInv(s: State, o: OrderId) {
    && Mirrored(s.od, o) && Decided(s.od, s.inv, s.history.leaks, o) && Agreed(s.od, s.inv, o)
    && Relayed(s.od, s.relay, s.commands, CreatedId(o), CreatedId(o) in s.inv.processed)
    && Relayed(s.od, s.relay, s.commands, CancelId(o), ReleasedId(o) in s.inv.outbox)
    && Announced(s.inv, s.publisher, s.outcomes, Decision(o), StatusPassed(s.od, o, Pending))
    && Announced(s.inv, s.publisher, s.outcomes, ReleasedId(o), StatusIs(s.od, o, Cancelled))
  }

  ghost predicate GenuineMessage(od: Orders.Db, m: Message) {
    m.eventId in od.outbox && m.body == od.outbox[m.eventId].payload
  }

  ghost predicate GenuineOutcome(inv: Inventory.Db, e: Outcome) {
    && e.id in inv.outbox && e == Announcement(inv, e.id)
    && (e.id == Decision(e.orderId) || e.id == ReleasedId(e.orderId))
  }

  /** No command is in flight that was not written to the order outbox first. */
  ghost predicate GenuineCommands(od: Orders.Db, w: Workers<Message>, q: Queue<Message>) {
    && (forall m :: Moving(w, q, m) ==> GenuineMessage(od, m))
    && (forall m :: Queued(q, m) ==> !m.eventId.FulfilmentId?)
  }

  /** The same for outcomes and the inventory outbox. */
  ghost predicate GenuineOutcomes(inv: Inventory.Db, w: Workers<Outcome>, q: Queue<Outcome>) {
    && (forall id :: id in inv.outbox ==> GenuineOutcome(inv, Announcement(inv, id)))
    && (forall e :: Moving(w, q, e) ==> GenuineOutcome(inv, e))
  }

  ghost predicate Genuine(s: State) {
    GenuineCommands(s.od, s.relay, s.commands) && GenuineOutcomes(s.inv, s.publisher, s.outcomes)
  }

  /** Every read any task ever made still names the order's owner, address and items. */
  ghost predicate ReadsHold(od: Orders.Db, seen: set<(OrderId, Orders.Order)>) {
    forall o, r :: (o, r) in seen ==> o in od.orders && Orders.SameIdentity(r, od.orders[o])
  }

  ghost predicate Inv(s: State) {
    Genuine(s) && ReadsHold(s.od, s.seen) && forall o :: OrderInv(s, o)
  }

  // ---- facts about the ledger -----------------------------------------------

  lemma NewRowsReserved(lines: seq<Line>)
    ensures var rows := Inventory.NewRows(lines);
            && !Inventory.AnyReserved(Inventory.AllReleased(rows))
            && (lines != [] ==> Inventory.AnyReserved(rows) && rows != map[] && Inventory.AllReleased(rows) != map[])
  {
    if lines != [] {
      var rows, p := Inventory.NewRows(lines), lines[|lines| - 1].productId;
      assert p in rows && rows[p].state == Inventory.Reserved;
      assert p in Inventory.AllReleased(rows);
    }
  }

  // ---- the order tables -----------------------------------------------------

  ghost predicate TablesInv(od: Orders.Db, inv: Inventory.Db, leaks: map<OrderId, seq<Line>>, o: OrderId) {
    Mirrored(od, o) && Decided(od, inv, leaks, o) && Agreed(od, inv, o)
  }

  lemma PlaceKeepsTables(od: Orders.Db, inv: Inventory.Db, leaks: map<OrderId, seq<Line>>, x: OrderId,
                         user: UserId, email: Option<string>, items: seq<Line>, now: int, o: OrderId)
    requires TablesInv(od, inv, leaks, o)
    ensures var placed := Orders.PutWithCommand(od, x, user, email, items, now);
            placed != None ==> TablesInv(placed.value, inv, leaks, o)
  {
  }

  lemma AdvanceKeepsMirror(od: Orders.Db, x: OrderId, read: Orders.Order, target: Fulfilment, now: int, o: OrderId)
    requires Mirrored(od, o) && Orders.Predecessor(target) != None
    ensures Mirrored(Orders.WriteFulfilment(od, x, read, Orders.Predecessor(target).value, target, now).0, o)
  {
  }

  lemma AdvanceKeepsTables(od: Orders.Db, inv: Inventory.Db, leaks: map<OrderId, seq<Line>>, x: OrderId,
                           read: Orders.Order, target: Fulfilment, now: int, o: OrderId)
    requires TablesInv(od, inv, leaks, o) && Orders.Predecessor(target) != None
    ensures var od' := Orders.WriteFulfilment(od, x, read, Orders.Predecessor(target).value, target, now).0;
            TablesInv(od', inv, leaks, o)
  {
    AdvanceKeepsMirror(od, x, read, target, now, o);
  }

  lemma CancelKeepsTables(od: Orders.Db, inv: Inventory.Db, leaks: map<OrderId, seq<Line>>, x: OrderId,
                          read: Orders.Order, user: UserId, email: Option<string>, now: int, o: OrderId)
    requires TablesInv(od, inv, leaks, o)
    requires x in od.orders && Orders.SameIdentity(read, od.orders[x])
    ensures TablesInv(Orders.WriteCancellation(od, x, read, user, email, now).0, inv, leaks, o)
  {
  }

  lemma MarkKeepsTables(od: Orders.Db, inv: Inventory.Db, leaks: map<OrderId, seq<Line>>, k: EventId, o: OrderId)
    requires TablesInv(od, inv, leaks, o)
    ensures TablesInv(Orders.MarkDelivered(od, k), inv, leaks, o)
  {
  }

  lemma PublishKeepsTables(od: Orders.Db, inv: Inventory.Db, leaks: map<OrderId, seq<Line>>, id: OutcomeId, o: OrderId)
    requires TablesInv(od, inv, leaks, o)
    ensures TablesInv(od, Inventory.MarkPublished(inv, id), leaks, o)
  {
  }

  lemma OutcomeKeepsTables(od: Orders.Db, inv: Inventory.Db, leaks: map<OrderId, seq<Line>>, e: Outcome, now: int,
                           o: OrderId)
    requires TablesInv(od, inv, leaks, o) && GenuineOutcome(inv, e)
    ensures TablesInv(HandleOutcome(od, e, now).0, inv, leaks, o)
  {
  }

  /** Handling an outcome settles the order it names, one way or another, and disturbs no settled order. */
  lemma OutcomeSettles(od: Orders.Db, inv: Inventory.Db, leaks: map<OrderId, seq<Line>>, e: Outcome, now: int,
                       o: OrderId)
    requires TablesInv(od, inv, leaks, o) && GenuineOutcome(inv, e)
    ensures var od' := HandleOutcome(od, e, now).0;
            && (StatusPassed(od, o, Pending) || (o in od.orders && e.id == Decision(o)) ==>
                  StatusPassed(od', o, Pending))
            && (StatusIs(od, o, Cancelled) || (o in od.orders && e.id == ReleasedId(o)) ==> StatusIs(od', o, Cancelled))
  {
  }

  lemma ReleaseLeavesOthers(od: Orders.Db, inv: Inventory.Db, leaks: map<OrderId, seq<Line>>, x: OrderId, now: int,
                            o: OrderId)
    requires TablesInv(od, inv, leaks, o) && o != x
    ensures var inv' := Inventory.Release(inv, x, now).0;
            TablesInv(od, inv', leaks, o) && (ReleasedId(o) in inv.outbox ==> ReleasedId(o) in inv'.outbox)
  {
  }

  lemma ReleaseReleases(od: Orders.Db, inv: Inventory.Db, leaks: map<OrderId, seq<Line>>, x: OrderId, now: int)
    requires TablesInv(od, inv, leaks, x) && CancelId(x) in od.outbox
    ensures var inv' := Inventory.Release(inv, x, now).0;
            TablesInv(od, inv', leaks, x) && ReleasedId(x) in inv'.outbox
  {
    NewRowsReserved(Lines(od.orders[x].items));
  }

  /** A genuine cancel command always finds rows, so it always ends with the order released. */
  lemma ReleaseKeepsTables(od: Orders.Db, inv: Inventory.Db, leaks: map<OrderId, seq<Line>>, x: OrderId, now: int,
                           o: OrderId)
    requires TablesInv(od, inv, leaks, o) && TablesInv(od, inv, leaks, x) && CancelId(x) in od.outbox
    ensures var inv' := Inventory.Release(inv, x, now).0;
            && TablesInv(od, inv', leaks, o) && inv'.processed == inv.processed
            && (ReleasedId(o) in inv.outbox || o == x ==> ReleasedId(o) in inv'.outbox)
  {
    if o == x { ReleaseReleases(od, inv, leaks, x, now); } else { ReleaseLeavesOthers(od, inv, leaks, x, now, o); }
  }

  /** Processing a command touches no other order. */
  lemma ProcessLeavesOthers(od: Orders.Db, inv: Inventory.Db, h: History, m: Message, now: int, o: OrderId)
    requires Decided(od, inv, h.leaks, o) && m.eventId.CreatedId? && m.body.OrderCreated?
    requires m.eventId.orderId != o && m.body.orderId != o
    ensures Decided(od, HandleCommand(Bare, inv, m, now).0, NoteLeak(h, inv, m, now).leaks, o)
  {
  }

  lemma ProcessConfirms(od: Orders.Db, inv: Inventory.Db, h: History, m: Message, now: int)
    requires m.eventId.CreatedId? && m.body.OrderCreated? && m.body.orderId == m.eventId.orderId
    requires m.eventId !in inv.processed && Decided(od, inv, h.leaks, m.eventId.orderId)
    requires m.body.orderId in od.orders && m.body.items == od.orders[m.body.orderId].items
    requires Inventory.Refusal(inv.stock, Lines(m.body.items)) == None
    ensures Decided(od, HandleCommand(Bare, inv, m, now).0, h.leaks, m.body.orderId)
  {
    var lines := Lines(m.body.items);
    assert map[] + Inventory.NewRows(lines) == Inventory.NewRows(lines);
    assert Inventory.RowsOf(inv.ledger, m.body.orderId) == map[];
  }

  lemma ProcessDecides(od: Orders.Db, inv: Inventory.Db, h: History, m: Message, now: int)
    requires m.eventId.CreatedId? && m.body.OrderCreated? && m.body.orderId == m.eventId.orderId
    requires m.eventId !in inv.processed && Decided(od, inv, h.leaks, m.eventId.orderId)
    requires m.body.orderId in od.orders && m.body.items == od.orders[m.body.orderId].items
    ensures Decided(od, HandleCommand(Bare, inv, m, now).0, NoteLeak(h, inv, m, now).leaks, m.body.orderId)
  {
    if Inventory.Refusal(inv.stock, Lines(m.body.items)) == None { ProcessConfirms(od, inv, h, m, now); }
  }

  lemma ProcessKeepsDecided(od: Orders.Db, inv: Inventory.Db, h: History, m: Message, now: int, o: OrderId)
    requires Decided(od, inv, h.leaks, o) && GenuineMessage(od, m) && Mirrored(od, m.eventId.orderId)
    requires m.eventId.CreatedId?
    ensures Decided(od, HandleCommand(Bare, inv, m, now).0, NoteLeak(h, inv, m, now).leaks, o)
  {
    if m.eventId !in inv.processed {
      if o == m.eventId.orderId { ProcessDecides(od, inv, h, m, now); }
      else { ProcessLeavesOthers(od, inv, h, m, now, o); }
    }
  }

  lemma ProcessKeepsTables(od: Orders.Db, inv: Inventory.Db, h: History, m: Message, now: int, o: OrderId)
    requires TablesInv(od, inv, h.leaks, o) && GenuineMessage(od, m) && Mirrored(od, m.eventId.orderId)
    requires m.eventId.CreatedId?
    ensures var (inv', ack) := HandleCommand(Bare, inv, m, now);
            && TablesInv(od, inv', NoteLeak(h, inv, m, now).leaks, o)
            && (CreatedId(o) in inv.processed || (ack && m.eventId == CreatedId(o)) ==> CreatedId(o) in inv'.processed)
            && (ReleasedId(o) in inv.outbox <==> ReleasedId(o) in inv'.outbox)
  {
    ProcessKeepsDecided(od, inv, h, m, now, o);
  }

  // ---- rows and messages ----------------------------------------------------

  lemma NewRowIsCovered(od: Orders.Db, od': Orders.Db, w: Workers<Message>, q: Queue<Message>, k: EventId, was: bool)
    requires Relayed(od, w, q, k, was) && GenuineCommands(od, w, q)
    requires k in od.outbox ==> k in od'.outbox && od'.outbox[k] == od.outbox[k]
    requires k in od'.outbox && k !in od.outbox ==> !od'.outbox[k].delivered
    ensures Relayed(od', w, q, k, was)
  {
    if k in od'.outbox && k !in od.outbox {
      assert !Moving(w, q, Message(k, od'.outbox[k].payload));
    }
  }

  lemma NewOutcomeIsCovered(inv: Inventory.Db, inv': Inventory.Db, w: Workers<Outcome>, q: Queue<Outcome>,
                            id: OutcomeId, was: bool)
    requires Announced(inv, w, q, id, was) && GenuineOutcomes(inv, w, q)
    requires id in inv.outbox ==> id in inv'.outbox && inv'.outbox[id] == inv.outbox[id]
    requires id in inv'.outbox && id !in inv.outbox ==> !inv'.outbox[id].published
    ensures Announced(inv', w, q, id, was)
  {
    if id in inv'.outbox && id !in inv.outbox {
      assert !Moving(w, q, Announcement(inv', id));
    }
  }

  /** A command writes new outcome rows unpublished and leaves the existing ones alone. */
  lemma CommandAddsOutcomes(w: Wiring, od: Orders.Db, inv: Inventory.Db, leaks: map<OrderId, seq<Line>>, m: Message,
                            now: int, id: OutcomeId)
    requires GenuineMessage(od, m) && !m.eventId.FulfilmentId? && TablesInv(od, inv, leaks, m.eventId.orderId)
    ensures var inv' := HandleCommand(w, inv, m, now).0;
            && inv.processed <= inv'.processed
            && (id in inv.outbox ==> id in inv'.outbox && inv'.outbox[id] == inv.outbox[id])
            && (id in inv'.outbox && id !in inv.outbox ==>
                  !inv'.outbox[id].published && GenuineOutcome(inv', Announcement(inv', id)))
  {
    if m.body.CancelRequested? && m.body.orderId in inv.ledger {
      NewRowsReserved(Lines(od.orders[m.body.orderId].items));
    }
  }

  // ---- each step keeps the invariant of each order --------------------------

  lemma OrderStepTables(s: State, a: OrderAction, o: OrderId)
    requires ReadsHold(s.od, s.seen) && TablesInv(s.od, s.inv, s.history.leaks, o)
    ensures TablesInv(OrderStep(s, a).od, s.inv, s.history.leaks, o)
  {
    match a
    case Place(x, user, email, items, now) =>
      PlaceKeepsTables(s.od, s.inv, s.history.leaks, x, user, email, items, now, o);
    case Read(x) =>
    case Advance(x, read, target, now) =>
      if Orders.Predecessor(target) != None {
        AdvanceKeepsTables(s.od, s.inv, s.history.leaks, x, read, target, now, o);
      }
    case Cancel(x, read, user, email, now) =>
      if (x, read) in s.seen { CancelKeepsTables(s.od, s.inv, s.history.leaks, x, read, user, email, now, o); }
  }

  lemma OrderStepRows(s: State, a: OrderAction, k: EventId)
    ensures k in s.od.outbox ==> k in OrderStep(s, a).od.outbox && OrderStep(s, a).od.outbox[k] == s.od.outbox[k]
    ensures k in OrderStep(s, a).od.outbox && k !in s.od.outbox ==> !OrderStep(s, a).od.outbox[k].delivered
  {
  }

  lemma OrderStepStatus(s: State, a: OrderAction, o: OrderId)
    requires TablesInv(s.od, s.inv, s.history.leaks, o)
    ensures StatusPassed(s.od, o, Pending) ==> StatusPassed(OrderStep(s, a).od, o, Pending)
    ensures StatusIs(s.od, o, Cancelled) ==> StatusIs(OrderStep(s, a).od, o, Cancelled)
  {
  }

  lemma OrderStepKeeps(s: State, a: OrderAction, o: OrderId)
    requires Genuine(s) && ReadsHold(s.od, s.seen) && OrderInv(s, o)
    ensures OrderInv(OrderStep(s, a), o)
  {
    OrderFrame(s, a);
    OrderStepTables(s, a, o);
    OrderStepRows(s, a, CreatedId(o));
    OrderStepRows(s, a, CancelId(o));
    NewRowIsCovered(s.od, OrderStep(s, a).od, s.relay, s.commands, CreatedId(o), CreatedId(o) in s.inv.processed);
    NewRowIsCovered(s.od, OrderStep(s, a).od, s.relay, s.commands, CancelId(o), ReleasedId(o) in s.inv.outbox);
    OrderStepStatus(s, a, o);
  }

  lemma MarkCovers(od: Orders.Db, w: Workers<Message>, q: Queue<Message>, k: EventId, handled: bool, m: Message)
    requires Relayed(od, w, q, k, handled) && GenuineMessage(od, m) && m in w.sent
    ensures Relayed(Orders.MarkDelivered(od, m.eventId), w.LeaveSent(m), q, k, handled)
  {
  }

  lemma ReadCovers(s: State, j: EventId, k: EventId, handled: bool)
    requires Relayed(s.od, s.relay, s.commands, k, handled)
    ensures Relayed(s.od, RelayStep(s, RelayRead(j)).relay, s.commands, k, handled)
  {
    if k in s.od.outbox && j in s.od.outbox {
      WorkersLeave(s.od.outbox[k].delivered, Message(k, s.od.outbox[k].payload), s.relay, s.commands, handled,
                   Message(j, s.od.outbox[j].payload));
    }
  }

  lemma RelaySendCovers(s: State, m: Message, k: EventId, handled: bool)
    requires Relayed(s.od, s.relay, s.commands, k, handled) && !k.FulfilmentId?
    ensures var t := RelayStep(s, RelaySend(m)); Relayed(s.od, t.relay, t.commands, k, handled)
  {
    if k in s.od.outbox {
      SendCovers(s.od.outbox[k].delivered, Message(k, s.od.outbox[k].payload), s.relay, s.commands, handled, m);
    }
  }

  lemma RelayCrashCovers(s: State, m: Message, sent: bool, k: EventId, handled: bool)
    requires Relayed(s.od, s.relay, s.commands, k, handled)
    ensures Relayed(s.od, RelayStep(s, RelayCrash(m, sent)).relay, s.commands, k, handled)
  {
    if k in s.od.outbox {
      WorkersLeave(s.od.outbox[k].delivered, Message(k, s.od.outbox[k].payload), s.relay, s.commands, handled, m);
    }
  }

  lemma RelayStepCovers(s: State, a: RelayAction, k: EventId, handled: bool)
    requires Relayed(s.od, s.relay, s.commands, k, handled) && GenuineCommands(s.od, s.relay, s.commands)
    requires !k.FulfilmentId?
    ensures Relayed(RelayStep(s, a).od, RelayStep(s, a).relay, RelayStep(s, a).commands, k, handled)
  {
    RelayFrame(s, a);
    match a
    case RelayRead(j) => ReadCovers(s, j, k, handled);
    case RelaySend(m) => RelaySendCovers(s, m, k, handled);
    case RelayMark(m) =>
      if m in s.relay.sent {
        assert Moving(s.relay, s.commands, m);
        MarkCovers(s.od, s.relay, s.commands, k, handled, m);
      }
    case RelayCrash(m, sent) => RelayCrashCovers(s, m, sent, k, handled);
  }

  lemma RelayStepKeeps(s: State, a: RelayAction, o: OrderId)
    requires GenuineCommands(s.od, s.relay, s.commands) && OrderInv(s, o)
    ensures OrderInv(RelayStep(s, a), o)
  {
    RelayFrame(s, a);
    MarkKeepsTables(s.od, s.inv, s.history.leaks, if a.RelayMark? then a.m.eventId else CreatedId(o), o);
    RelayStepCovers(s, a, CreatedId(o), CreatedId(o) in s.inv.processed);
    RelayStepCovers(s, a, CancelId(o), ReleasedId(o) in s.inv.outbox);
  }

  lemma TakeCommandTables(w: Wiring, s: State, m: Message, now: int, o: OrderId)
    requires OrderInv(s, o) && OrderInv(s, m.eventId.orderId) && GenuineMessage(s.od, m) && !m.eventId.FulfilmentId?
    ensures var (inv', ack) := HandleCommand(w, s.inv, m, now);
            && TablesInv(s.od, inv', NoteLeak(s.history, s.inv, m, now).leaks, o)
            && (CreatedId(o) in s.inv.processed || (ack && m.eventId == CreatedId(o)) ==>
                  CreatedId(o) in inv'.processed)
            && (ReleasedId(o) in s.inv.outbox || (ack && m.eventId == CancelId(o)) ==> ReleasedId(o) in inv'.outbox)
  {
    if m.eventId.CreatedId? {
      ProcessKeepsTables(s.od, s.inv, s.history, m, now, o);
    } else if w == Bare {
      ReleaseKeepsTables(s.od, s.inv, s.history.leaks, m.eventId.orderId, now, o);
    }
  }

  lemma CommandAckCovers(s: State, m: Message, k: EventId, was: bool, now: bool)
    requires Relayed(s.od, s.relay, s.commands, k, was) && (was ==> now)
    ensures Relayed(s.od, s.relay, s.commands, k, now)
    ensures (m.eventId == k ==> now) ==> Relayed(s.od, s.relay, s.commands.Ack(m), k, now)
  {
    if k in s.od.outbox {
      AckCovers(s.od.outbox[k].delivered, Message(k, s.od.outbox[k].payload), s.relay, s.commands, was, now, m);
    }
  }

  lemma CommandQueueCovers(s: State, m: Message, k: EventId, handled: bool)
    requires Relayed(s.od, s.relay, s.commands, k, handled)
    ensures Relayed(s.od, s.relay, s.commands.Delete(m), k, handled)
    ensures Relayed(s.od, s.relay, s.commands.Redeliver(m), k, handled)
  {
    if k in s.od.outbox {
      QueueCovers(s.od.outbox[k].delivered, Message(k, s.od.outbox[k].payload), s.relay, s.commands, handled, m);
    }
  }

  lemma CommandStepKeeps(w: Wiring, s: State, a: CommandAction, o: OrderId)
    requires Genuine(s) && OrderInv(s, o) && OrderInv(s, a.m.eventId.orderId)
    ensures OrderInv(CommandStep(w, s, a), o)
  {
    CommandFrame(w, s, a);
    if a.TakeCommand? && a.m in s.commands.messages {
      assert Moving(s.relay, s.commands, a.m) && Queued(s.commands, a.m);
      TakeCommandTables(w, s, a.m, a.now, o);
      var inv' := HandleCommand(w, s.inv, a.m, a.now).0;
      CommandAddsOutcomes(w, s.od, s.inv, s.history.leaks, a.m, a.now, Decision(o));
      CommandAddsOutcomes(w, s.od, s.inv, s.history.leaks, a.m, a.now, ReleasedId(o));
      NewOutcomeIsCovered(s.inv, inv', s.publisher, s.outcomes, Decision(o), StatusPassed(s.od, o, Pending));
      NewOutcomeIsCovered(s.inv, inv', s.publisher, s.outcomes, ReleasedId(o), StatusIs(s.od, o, Cancelled));
      CommandAckCovers(s, a.m, CreatedId(o), CreatedId(o) in s.inv.processed, CreatedId(o) in inv'.processed);
      CommandAckCovers(s, a.m, CancelId(o), ReleasedId(o) in s.inv.outbox, ReleasedId(o) in inv'.outbox);
    } else {
      CommandQueueCovers(s, a.m, CreatedId(o), CreatedId(o) in s.inv.processed);
      CommandQueueCovers(s, a.m, CancelId(o), ReleasedId(o) in s.inv.outbox);
    }
  }

  lemma PublishCovers(inv: Inventory.Db, w: Workers<Outcome>, q: Queue<Outcome>, id: OutcomeId, applied: bool,
                      e: Outcome)
    requires Announced(inv, w, q, id, applied) && GenuineOutcome(inv, e) && e in w.sent
    ensures Announced(Inventory.MarkPublished(inv, e.id), w.LeaveSent(e), q, id, applied)
  {
  }

  lemma PublishStepCovers(s: State, a: PublishAction, id: OutcomeId, applied: bool)
    requires Announced(s.inv, s.publisher, s.outcomes, id, applied) && GenuineOutcomes(s.inv, s.publisher, s.outcomes)
    ensures Announced(PublishStep(s, a).inv, PublishStep(s, a).publisher, PublishStep(s, a).outcomes, id, applied)
  {
    if id in s.inv.outbox {
      var done, e := s.inv.outbox[id].published, Announcement(s.inv, id);
      match a
      case OutRead(j) =>
        if j in s.inv.outbox { WorkersLeave(done, e, s.publisher, s.outcomes, applied, Announcement(s.inv, j)); }
      case OutSend(x) => SendCovers(done, e, s.publisher, s.outcomes, applied, x);
      case OutMark(x) =>
        if x in s.publisher.sent {
          assert Moving(s.publisher, s.outcomes, x);
          PublishCovers(s.inv, s.publisher, s.outcomes, id, applied, x);
        }
      case OutCrash(x, _) => WorkersLeave(done, e, s.publisher, s.outcomes, applied, x);
    }
  }

  lemma PublishStepKeeps(s: State, a: PublishAction, o: OrderId)
    requires GenuineOutcomes(s.inv, s.publisher, s.outcomes) && OrderInv(s, o)
    ensures OrderInv(PublishStep(s, a), o)
  {
    PublishFrame(s, a);
    PublishKeepsTables(s.od, s.inv, s.history.leaks, if a.OutMark? then a.e.id else ReleasedId(o), o);
    PublishStepCovers(s, a, Decision(o), StatusPassed(s.od, o, Pending));
    PublishStepCovers(s, a, ReleasedId(o), StatusIs(s.od, o, Cancelled));
  }

  lemma OutcomeAckCovers(s: State, e: Outcome, id: OutcomeId, was: bool, now: bool)
    requires Announced(s.inv, s.publisher, s.outcomes, id, was) && (was ==> now)
    ensures Announced(s.inv, s.publisher, s.outcomes, id, now)
    ensures (e.id == id ==> now) ==> Announced(s.inv, s.publisher, s.outcomes.Ack(e), id, now)
  {
    if id in s.inv.outbox {
      AckCovers(s.inv.outbox[id].published, Announcement(s.inv, id), s.publisher, s.outcomes, was, now, e);
    }
  }

  lemma OutcomeQueueCovers(s: State, e: Outcome, id: OutcomeId, applied: bool)
    requires Announced(s.inv, s.publisher, s.outcomes, id, applied)
    ensures Announced(s.inv, s.publisher, s.outcomes.Delete(e), id, applied)
    ensures Announced(s.inv, s.publisher, s.outcomes.Redeliver(e), id, applied)
  {
    if id in s.inv.outbox {
      QueueCovers(s.inv.outbox[id].published, Announcement(s.inv, id), s.publisher, s.outcomes, applied, e);
    }
  }

  lemma OutcomeStepKeeps(s: State, a: OutcomeAction, o: OrderId)
    requires GenuineOutcomes(s.inv, s.publisher, s.outcomes) && OrderInv(s, o)
    ensures OrderInv(OutcomeStep(s, a), o)
  {
    OutcomeFrame(s, a);
    if a.TakeOutcome? && a.e in s.outcomes.messages {
      assert Moving(s.publisher, s.outcomes, a.e);
      var od' := HandleOutcome(s.od, a.e, a.now).0;
      OutcomeKeepsTables(s.od, s.inv, s.history.leaks, a.e, a.now, o);
      OutcomeSettles(s.od, s.inv, s.history.leaks, a.e, a.now, o);
      OutcomeAckCovers(s, a.e, Decision(o), StatusPassed(s.od, o, Pending), StatusPassed(od', o, Pending));
      OutcomeAckCovers(s, a.e, ReleasedId(o), StatusIs(s.od, o, Cancelled), StatusIs(od', o, Cancelled));
    } else {
      OutcomeQueueCovers(s, a.e, Decision(o), StatusPassed(s.od, o, Pending));
      OutcomeQueueCovers(s, a.e, ReleasedId(o), StatusIs(s.od, o, Cancelled));
    }
  }

  lemma AdjustKeeps(s: State, p: ProductId, q: int, o: OrderId)
    requires OrderInv(s, o)
    ensures OrderInv(AdjustStep(s, p, q), o)
  {
  }

  lemma StepKeepsOrder(w: Wiring, s: State, a: Action, o: OrderId)
    requires Inv(s)
    ensures OrderInv(Apply(w, s, a), o)
  {
    assert OrderInv(s, o);
    match a
    case OnOrder(x) => OrderStepKeeps(s, x, o);
    case OnRelay(x) => RelayStepKeeps(s, x, o);
    case OnCommand(x) => assert OrderInv(s, x.m.eventId.orderId); CommandStepKeeps(w, s, x, o);
    case OnPublish(x) => PublishStepKeeps(s, x, o);
    case OnOutcome(x) => OutcomeStepKeeps(s, x, o);
    case Adjust(p, q) => AdjustKeeps(s, p, q, o);
  }
}
