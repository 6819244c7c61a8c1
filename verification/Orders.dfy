/** The orders table, its outbox, and the conditional writes of the order service. */
module Orders {
  import opened Common
  import opened SagaTypes

  datatype Order = Order(
    userId: UserId, email: Option<string>, items: seq<Line>,
    status: Status, fulfilment: Fulfilment, reason: Option<Reason>, updatedAt: int)

  datatype OutboxRow = OutboxRow(payload: Payload, delivered: bool)

  datatype Db = Db(orders: map<OrderId, Order>, outbox: map<EventId, OutboxRow>)

  datatype Result = Done(order: Order) | NotFound | NotPending

  /** Which current status a status write insists on, if any. */
  datatype Guard = AnyStatus | Only(status: Status)

  // ---- the transactions -----------------------------------------------------

  function Truthy(email: Option<string>): Option<string> {
    if email == Some("") then None else email
  }

  /** `None` when the conditional transaction is cancelled. */
  function PutWithCommand(db: Db, id: OrderId, user: UserId, email: Option<string>, items: seq<Line>,
                          now: int): Option<Db> {
    if id in db.orders || CreatedId(id) in db.outbox then None
    else Some(Db(
      db.orders[id := Order(user, Truthy(email), items, Pending, NotStarted, None, now)],
      db.outbox[CreatedId(id) := OutboxRow(OrderCreated(id, user, email, items), false)]))
  }

  function SetStatus(db: Db, id: OrderId, status: Status, reason: Option<Reason>, guard: Guard, now: int)
    : (Db, Result)
  {
    if id !in db.orders then (db, NotFound)
    else
      var row := db.orders[id];
      if guard.Only? && row.status != guard.status then (db, NotPending)
      else
        var row' := row.(status := status, updatedAt := now, reason := if reason == None then row.reason else reason);
        (db.(orders := db.orders[id := row']), Done(row'))
  }

  /** The second half of `set_fulfilment`: the transaction, given the order as some task read it earlier. */
  function WriteFulfilment(db: Db, id: OrderId, read: Order, expected: Fulfilment, target: Fulfilment,
                           now: int): (Db, Result) {
    if id !in db.orders then (db, NotFound)
    else
      var row, e := db.orders[id], FulfilmentId(id, target);
      if row.status != Confirmed || row.fulfilment != expected || e in db.outbox then (db, NotPending)
      else
        (Db(db.orders[id := row.(fulfilment := target, updatedAt := now)],
            db.outbox[e := OutboxRow(FulfilmentChanged(id, read.userId, read.email, target), false)]),
         Done(read.(fulfilment := target, updatedAt := now)))
  }

  /** The second half of `request_cancellation`. */
  function WriteCancellation(db: Db, id: OrderId, read: Order, user: UserId, email: Option<string>, now: int)
    : (Db, Result)
  {
    if id !in db.orders then (db, NotFound)
    else
      var row, e := db.orders[id], CancelId(id);
      if row.status != Confirmed || row.userId != user || row.fulfilment !in {NotStarted, Packing} || e in db.outbox
      then (db, NotPending)
      else
        (Db(db.orders[id := row.(status := CancelPending, updatedAt := now)],
            db.outbox[e := OutboxRow(CancelRequested(id, read.userId, email, read.items), false)]),
         Done(read.(status := CancelPending, updatedAt := now)))
  }

  function MarkDelivered(db: Db, e: EventId): Db {
    if e in db.outbox && !db.outbox[e].delivered
    then db.(outbox := db.outbox[e := db.outbox[e].(delivered := true)]) else db
  }

  /** The one step each fulfilment target may be reached from. */
  function Predecessor(target: Fulfilment): Option<Fulfilment> {
    match target
    case NotStarted => None
    case Packing => Some(NotStarted)
    case Dispatched => Some(Packing)
    case OutForDelivery => Some(Dispatched)
    case Delivered => Some(OutForDelivery)
  }

  /** The fields no write ever changes. */
  predicate SameIdentity(a: Order, b: Order) {
    a.userId == b.userId && a.email == b.email && a.items == b.items
  }

  // ---- stale reads ----------------------------------------------------------

  /**
   * A read that is out of date in every mutable field still produces the table and the event
   * of the atomic guarded transition. What the caller is told is the persisted order exactly
   * when the read already showed the status and reason that the row has at the write.
   */
  lemma StaleFulfilmentIsAtomic(db: Db, id: OrderId, read: Order, expected: Fulfilment, target: Fulfilment, now: int)
    requires id in db.orders && SameIdentity(read, db.orders[id])
    ensures var (db', r) := WriteFulfilment(db, id, read, expected, target, now);
            var (atomic, s) := WriteFulfilment(db, id, db.orders[id], expected, target, now);
            && db' == atomic && (r.Done? <==> s.Done?)
            && (r.Done? ==>
                  (r.order == db'.orders[id] <==> read.status == Confirmed && read.reason == db.orders[id].reason))
  {
  }

  /** The same for a cancellation; here the stale field is the fulfilment status. */
  lemma StaleCancellationIsAtomic(db: Db, id: OrderId, read: Order, user: UserId, email: Option<string>, now: int)
    requires id in db.orders && SameIdentity(read, db.orders[id])
    ensures var (db', r) := WriteCancellation(db, id, read, user, email, now);
            var (atomic, s) := WriteCancellation(db, id, db.orders[id], user, email, now);
            && db' == atomic && (r.Done? <==> s.Done?)
            && (r.Done? ==> (r.order == db'.orders[id] <==>
                             read.fulfilment == db.orders[id].fulfilment && read.reason == db.orders[id].reason))
  {
  }

  // ---- the repository -------------------------------------------------------

  class OrderRepository {
    var orders: map<OrderId, Order>
    var outbox: map<EventId, OutboxRow>

    constructor ()
      ensures Contents() == Db(map[], map[])
    {
      orders, outbox := map[], map[];
    }

    function Contents(): Db
      reads this
    {
      Db(orders, outbox)
    }

    method Put(id: OrderId, user: UserId, email: Option<string>, items: seq<Line>, now: int) returns (ok: bool)
      modifies this
      ensures ok <==> PutWithCommand(old(Contents()), id, user, email, items, now) != None
      ensures ok <==> id !in old(orders) && CreatedId(id) !in old(outbox)
      ensures ok ==> id in orders && orders[id] == Order(user, if email == Some("") then None else email, items,
                                                         Pending, NotStarted, None, now)
      ensures ok ==> CreatedId(id) in outbox
                     && outbox[CreatedId(id)] == OutboxRow(OrderCreated(id, user, email, items), false)
      ensures forall x :: x in old(orders) ==> x in orders && orders[x] == old(orders)[x]
      ensures Contents()
              == if ok then PutWithCommand(old(Contents()), id, user, email, items, now).value else old(Contents())
    {
      var e := CreatedId(id);
      if id in orders || e in outbox {
        return false;
      }
      var stored := if email == Some("") then None else email;
      orders := orders[id := Order(user, stored, items, Pending, NotStarted, None, now)];
      outbox := outbox[e := OutboxRow(OrderCreated(id, user, email, items), false)];
      return true;
    }

    method UpdateStatus(id: OrderId, status: Status, reason: Option<Reason>, guard: Guard, now: int) returns (r: Result)
      modifies this`orders
      ensures (Contents(), r) == SetStatus(old(Contents()), id, status, reason, guard, now)
      ensures r == NotFound <==> id !in old(orders)
      ensures r == NotPending <==> id in old(orders) && guard.Only? && old(orders)[id].status != guard.status
      ensures r.Done? ==> id in orders && r.order == orders[id] && orders[id].status == status
                          && orders[id].reason == (if reason.Some? then reason else old(orders)[id].reason)
                          && orders[id].fulfilment == old(orders)[id].fulfilment
                          && SameIdentity(orders[id], old(orders)[id])
      ensures !r.Done? ==> orders == old(orders)
      ensures orders.Keys == old(orders).Keys && forall x :: x in orders && x != id ==> orders[x] == old(orders)[x]
    {
      if id !in orders {
        return NotFound;
      }
      if guard.Only? && orders[id].status != guard.status {
        return NotPending;
      }
      var row := orders[id].(status := status, updatedAt := now);
      if reason.Some? {
        row := row.(reason := reason);
      }
      orders := orders[id := row];
      return Done(row);
    }

    /** The transaction part; `current` may have been read by this task at any earlier time. */
    method TransactFulfilment(id: OrderId, current: Order, expected: Fulfilment, target: Fulfilment, now: int)
      returns (r: Result)
      modifies this
      ensures (Contents(), r) == WriteFulfilment(old(Contents()), id, current, expected, target, now)
      ensures r == NotFound <==> id !in old(orders)
      ensures r.Done? <==> id in old(orders) && old(orders)[id].status == Confirmed
                           && old(orders)[id].fulfilment == expected && FulfilmentId(id, target) !in old(outbox)
      ensures r.Done? ==> orders == old(orders)[id := old(orders)[id].(fulfilment := target, updatedAt := now)]
      ensures r.Done? ==> outbox == old(outbox)[FulfilmentId(id, target) := OutboxRow(
                                                  FulfilmentChanged(id, current.userId, current.email, target), false)]
      ensures !r.Done? ==> Contents() == old(Contents())
    {
      var updated := current.(fulfilment := target, updatedAt := now);
      var e := FulfilmentId(id, target);
      if id !in orders {
        return NotFound;
      }
      if orders[id].status != Confirmed || orders[id].fulfilment != expected || e in outbox {
        return NotPending;
      }
      orders := orders[id := orders[id].(fulfilment := target, updatedAt := now)];
      outbox := outbox[e := OutboxRow(FulfilmentChanged(id, updated.userId, updated.email, updated.fulfilment), false)];
      return Done(updated);
    }

    method TransactCancellation(id: OrderId, current: Order, user: UserId, email: Option<string>, now: int)
      returns (r: Result)
      modifies this
      ensures (Contents(), r) == WriteCancellation(old(Contents()), id, current, user, email, now)
      ensures r == NotFound <==> id !in old(orders)
      ensures r.Done? <==> id in old(orders) && old(orders)[id].status == Confirmed && old(orders)[id].userId == user
                           && (old(orders)[id].fulfilment == NotStarted || old(orders)[id].fulfilment == Packing)
                           && CancelId(id) !in old(outbox)
      ensures r.Done? ==> orders == old(orders)[id := old(orders)[id].(status := CancelPending, updatedAt := now)]
      ensures r.Done? ==> outbox == old(outbox)[CancelId(id) := OutboxRow(
                                                  CancelRequested(id, current.userId, email, current.items), false)]
      ensures !r.Done? ==> Contents() == old(Contents())
    {
      var updated := current.(status := CancelPending, updatedAt := now);
      var e := CancelId(id);
      if id !in orders {
        return NotFound;
      }
      var row := orders[id];
      if row.status != Confirmed || row.userId != user || row.fulfilment !in {NotStarted, Packing} || e in outbox {
        return NotPending;
      }
      orders := orders[id := row.(status := updated.status, updatedAt := now)];
      outbox := outbox[e := OutboxRow(CancelRequested(id, updated.userId, email, updated.items), false)];
      return Done(updated);
    }

    method MarkOutboxDelivered(e: EventId) returns (ok: bool)
      modifies this`outbox
      ensures Contents() == MarkDelivered(old(Contents()), e)
      ensures ok <==> e in old(outbox) && !old(outbox)[e].delivered
    {
      ok := e in outbox && !outbox[e].delivered;
      if ok {
        outbox := outbox[e := outbox[e].(delivered := true)];
      }
    }
  }
}
