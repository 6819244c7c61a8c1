/** The main results about the saga: what holds in every state any run can reach. */
module SagaTheorems {
  import opened Common
  import opened SagaTypes
  import opened Messaging
  import opened Saga
  import opened SagaInvariant
  import opened SagaRuns
  import Inventory
  import Orders

  // ---- no order is lost -----------------------------------------------------

  /** Something is still on its way for the order command of `o`. */
  ghost predicate DecisionPending(s: State, o: OrderId) {
    || (CreatedId(o) in s.od.outbox && !s.od.outbox[CreatedId(o)].delivered)
    || (exists m :: m in s.commands.messages && m.eventId == CreatedId(o))
    || (Decision(o) in s.inv.outbox && !s.inv.outbox[Decision(o)].published)
    || (exists e :: e in s.outcomes.messages && e.id == Decision(o))
  }

  /** Something is still on its way for the cancel command of `o`. */
  ghost predicate ReleasePending(s: State, o: OrderId) {
    || (CancelId(o) in s.od.outbox && !s.od.outbox[CancelId(o)].delivered)
    || (exists m :: m in s.commands.messages && m.eventId == CancelId(o))
    || (ReleasedId(o) in s.inv.outbox && !s.inv.outbox[ReleasedId(o)].published)
    || (exists e :: e in s.outcomes.messages && e.id == ReleasedId(o))
  }

  /** In every reachable state an unsettled order has a row or a message that will move it on. */
  lemma NoOrderIsLost(w: Wiring, stock: Inventory.Stock, run: seq<Action>, o: OrderId)
    ensures var s := Exec(w, Init(stock), run);
            && (StatusIs(s.od, o, Pending) ==> DecisionPending(s, o))
            && (StatusIs(s.od, o, CancelPending) ==> ReleasePending(s, o))
  {
    var s := Exec(w, Init(stock), run);
    RunKeepsInv(w, stock, run);
    assert OrderInv(s, o);
  }

  /** Both outboxes are delivered and both queues are empty. */
  ghost predicate Drained(s: State) {
    && (forall k :: k in s.od.outbox && !k.FulfilmentId? ==> s.od.outbox[k].delivered)
    && (forall m :: m !in s.commands.messages)
    && (forall id :: id in s.inv.outbox ==> s.inv.outbox[id].published)
    && (forall e :: e !in s.outcomes.messages)
  }

  lemma DrainedMeansSettled(w: Wiring, stock: Inventory.Stock, run: seq<Action>, o: OrderId)
    requires var s := Exec(w, Init(stock), run); Drained(s) && o in s.od.orders
    ensures Exec(w, Init(stock), run).od.orders[o].status in {Confirmed, Rejected, Cancelled}
  {
    NoOrderIsLost(w, stock, run, o);
  }

  // ---- the services agree ---------------------------------------------------

  /** The order's status and the reservation ledger tell the same story. */
  lemma ServicesAgree(w: Wiring, stock: Inventory.Stock, run: seq<Action>, o: OrderId)
    requires o in Exec(w, Init(stock), run).od.orders
    ensures var s := Exec(w, Init(stock), run);
            var row := s.od.orders[o];
            var rows := Inventory.NewRows(Lines(row.items));
            && (row.status == Confirmed ==> o in s.inv.ledger && s.inv.ledger[o] == rows != map[])
            && (row.status == Rejected ==> o !in s.inv.ledger && row.reason != None)
            && (row.status == Cancelled ==> o in s.inv.ledger && s.inv.ledger[o] == Inventory.AllReleased(rows))
            && (row.status == CancelPending ==>
                  o in s.inv.ledger && s.inv.ledger[o] in {rows, Inventory.AllReleased(rows)})
  {
    var s := Exec(w, Init(stock), run);
    RunKeepsInv(w, stock, run);
    assert OrderInv(s, o);
    NewRowsReserved(Lines(s.od.orders[o].items));
  }

  lemma ReleaseFindsRows(s: State, o: OrderId)
    requires OrderInv(s, o) && CancelId(o) in s.od.outbox
    ensures o in s.inv.ledger && s.inv.ledger[o] != map[]
    ensures Inventory.Release(s.inv, o, 0).1.duplicate <==> ReleasedId(o) in s.inv.outbox
  {
    NewRowsReserved(Lines(s.od.orders[o].items));
    var rows := s.inv.ledger[o];
    var held := Inventory.NewRows(Lines(s.od.orders[o].items));
    assert rows == if ReleasedId(o) in s.inv.outbox then Inventory.AllReleased(held) else held;
  }

  /**
   * A genuine cancel command never meets an order without ledger rows: its "nothing to do" exit means "already
   * released".
   */
  lemma CancelAlwaysFindsRows(w: Wiring, stock: Inventory.Stock, run: seq<Action>, m: Message)
    requires m in Exec(w, Init(stock), run).commands.messages && m.eventId.CancelId?
    ensures var s := Exec(w, Init(stock), run);
            var o := m.eventId.orderId;
            && o in s.inv.ledger && s.inv.ledger[o] != map[]
            && (Inventory.Release(s.inv, o, 0).1.duplicate <==> ReleasedId(o) in s.inv.outbox)
  {
    var s := Exec(w, Init(stock), run);
    RunKeepsInv(w, stock, run);
    assert OrderInv(s, m.eventId.orderId);
    assert Moving(s.relay, s.commands, m);
    ReleaseFindsRows(s, m.eventId.orderId);
  }

  /** Whatever the race, an order that is being cancelled or is cancelled was never dispatched. */
  lemma {:induction false} NeverCancelledAndDispatched(w: Wiring, stock: Inventory.Stock, run: seq<Action>, o: OrderId)
    requires o in Exec(w, Init(stock), run).od.orders
    ensures var row := Exec(w, Init(stock), run).od.orders[o];
            !(row.status in {CancelPending, Cancelled} && row.fulfilment.Rank() >= Dispatched.Rank())
  {
    RunKeepsInv(w, stock, run);
    assert OrderInv(Exec(w, Init(stock), run), o);
  }

  /**
   * Along any run an order appears as PENDING and NOT_STARTED, never disappears, keeps its owner and lines, and
   * each step leaves its status and fulfilment alone or follows one edge of the life cycle.
   */
  lemma HistoryIsAPath(w: Wiring, stock: Inventory.Stock, run: seq<Action>, i: nat, o: OrderId)
    requires i < |run|
    ensures var s, t := Exec(w, Init(stock), run[..i]).od, Exec(w, Init(stock), run[..i + 1]).od;
            && (o in s.orders ==>
                  && o in t.orders && Orders.SameIdentity(s.orders[o], t.orders[o])
                  && var (a, b) := (s.orders[o], t.orders[o]);
                     (a.status == b.status && a.fulfilment == b.fulfilment)
                     || Edge(a.status, a.fulfilment, b.status, b.fulfilment))
            && (o !in s.orders && o in t.orders ==>
                  t.orders[o].status == Pending && t.orders[o].fulfilment == NotStarted)
  {
    assert run[..i + 1][..i] == run[..i];
    RunKeepsInv(w, stock, run[..i]);
    StepAdvances(w, Exec(w, Init(stock), run[..i]), run[i]);
  }

  // ---- the outbox is the order's history ------------------------------------

  /** Outbox rows are exactly the order's history, so the event-row condition never fails on its own. */
  lemma OutboxMirrorsHistory(w: Wiring, stock: Inventory.Stock, run: seq<Action>, o: OrderId)
    ensures var od := Exec(w, Init(stock), run).od;
            && (CreatedId(o) in od.outbox <==> o in od.orders)
            && (CancelId(o) in od.outbox <==> StatusIs(od, o, CancelPending) || StatusIs(od, o, Cancelled))
            && (forall f :: FulfilmentId(o, f) in od.outbox <==>
                  o in od.orders && 0 < f.Rank() <= od.orders[o].fulfilment.Rank())
            && (StatusIs(od, o, Confirmed) ==> CancelId(o) !in od.outbox)
            && (StatusIs(od, o, Confirmed) ==>
                  forall f :: Orders.Predecessor(f) == Some(od.orders[o].fulfilment) ==>
                    FulfilmentId(o, f) !in od.outbox)
  {
    RunKeepsInv(w, stock, run);
    assert OrderInv(Exec(w, Init(stock), run), o);
  }

  /**
   * A write made from any read any task ever made, however stale, leaves the table and the event exactly as
   * the atomic guarded transition on the current row would.
   */
  lemma StaleWritesAreAtomic(w: Wiring, stock: Inventory.Stock, run: seq<Action>, o: OrderId, read: Orders.Order,
                             target: Fulfilment, user: UserId, email: Option<string>, now: int)
    requires (o, read) in Exec(w, Init(stock), run).seen
    ensures var s := Exec(w, Init(stock), run);
            && o in s.od.orders
            && AdvanceStep(s, o, read, target, now)
               == (var previous := Orders.Predecessor(target);
                   if previous == None then s
                   else s.(od := Orders.WriteFulfilment(s.od, o, s.od.orders[o], previous.value, target, now).0))
            && CancelStep(s, o, read, user, email, now)
               == s.(od := Orders.WriteCancellation(s.od, o, s.od.orders[o], user, email, now).0)
  {
    RunKeepsInv(w, stock, run);
  }

  // ---- what the events say --------------------------------------------------

  /** An outbox row speaks of its own order: its owner, and its address and lines or the status it has reached. */
  ghost predicate Tells(od: Orders.Db, k: EventId) {
    k in od.outbox ==>
      && k.orderId in od.orders
      && var row, p := od.orders[k.orderId], od.outbox[k].payload;
         && p.orderId == k.orderId && p.userId == row.userId
         && match k
            case CreatedId(_) =>
              p.OrderCreated? && p.items == row.items && row.email == if p.email == Some("") then None else p.email
            case CancelId(_) => p.CancelRequested? && p.items == row.items
            case FulfilmentId(_, f) => p.FulfilmentChanged? && p.target == f && p.email == row.email
  }

  lemma NewRowTells(s: State, a: OrderAction, k: EventId)
    requires ReadsHold(s.od, s.seen) && k !in s.od.outbox
    ensures Tells(OrderStep(s, a).od, k)
  {
  }

  lemma OldRowTells(od: Orders.Db, od': Orders.Db, k: EventId)
    requires OrdersAdvance(od, od') && k in od.outbox && Tells(od, k)
    ensures Tells(od', k)
  {
  }

  lemma OnlyOrdersWriteRows(w: Wiring, s: State, a: Action, k: EventId)
    requires k !in s.od.outbox && !a.OnOrder?
    ensures k !in Apply(w, s, a).od.outbox
  {
    match a
    case OnRelay(x) => RelayFrame(s, x);
    case OnCommand(x) => CommandFrame(w, s, x);
    case OnPublish(x) => PublishFrame(s, x);
    case OnOutcome(x) => OutcomeFrame(s, x);
    case Adjust(_, _) =>
  }

  /**
   * In every reachable state each event names the order's owner and carries its lines, its address or the fulfilment
   * status of its own key, although the writer may have built it from a stale read.
   */
  lemma {:induction false} EventsTellTheTruth(w: Wiring, stock: Inventory.Stock, run: seq<Action>, k: EventId)
    ensures Tells(Exec(w, Init(stock), run).od, k)
  {
    if run == [] {
    } else {
      var s, a := Exec(w, Init(stock), run[..|run| - 1]), run[|run| - 1];
      EventsTellTheTruth(w, stock, run[..|run| - 1], k);
      RunKeepsInv(w, stock, run[..|run| - 1]);
      StepAdvances(w, s, a);
      if k in s.od.outbox {
        OldRowTells(s.od, Apply(w, s, a).od, k);
      } else if a.OnOrder? {
        NewRowTells(s, a.order, k);
      } else {
        OnlyOrdersWriteRows(w, s, a, k);
      }
    }
  }

  /** The commands that reach inventory say the same. */
  lemma CommandsTellTheTruth(w: Wiring, stock: Inventory.Stock, run: seq<Action>, m: Message)
    requires m in Exec(w, Init(stock), run).commands.messages
    ensures var od := Exec(w, Init(stock), run).od;
            && m.eventId.orderId in od.orders && m.body.orderId == m.eventId.orderId
            && m.body.userId == od.orders[m.eventId.orderId].userId
            && !m.body.FulfilmentChanged? && m.body.items == od.orders[m.eventId.orderId].items
  {
    RunKeepsInv(w, stock, run);
    EventsTellTheTruth(w, stock, run, m.eventId);
    var s := Exec(w, Init(stock), run);
    assert Moving(s.relay, s.commands, m) && Queued(s.commands, m);
  }

  // ---- decisions are final --------------------------------------------------

  /** What was decided for `o` in `s` still stands in `t`. */
  ghost predicate Stands(s: State, t: State, o: OrderId) {
    && OutcomesKept(s.inv, t.inv)
    && (o in s.od.orders ==> o in t.od.orders && Orders.SameIdentity(s.od.orders[o], t.od.orders[o]))
    && (StatusIs(s.od, o, Rejected) ==> StatusIs(t.od, o, Rejected))
    && (StatusIs(s.od, o, Cancelled) ==> StatusIs(t.od, o, Cancelled))
    && (StatusPassed(s.od, o, Pending) ==> StatusPassed(t.od, o, Pending))
  }

  lemma StandsOn(s: State, t: State, u: State, o: OrderId)
    requires Stands(s, t, o) && Stands(t, u, o)
    ensures Stands(s, u, o)
  {
  }

  lemma StepStands(w: Wiring, s: State, a: Action, o: OrderId)
    requires Inv(s)
    ensures Stands(s, Apply(w, s, a), o)
  {
    StepAdvances(w, s, a);
    StepKeepsOutcomes(w, s, a);
  }

  /** One reservation decision per order, never revised; and REJECTED and CANCELLED are final. */
  lemma {:induction false} DecisionsAreFinal(w: Wiring, stock: Inventory.Stock, run: seq<Action>, more: seq<Action>,
          o: OrderId)
    ensures Stands(Exec(w, Init(stock), run), Exec(w, Init(stock), run + more), o)
  {
    if more == [] {
      assert run + more == run;
    } else {
      var front := run + more[..|more| - 1];
      DecisionsAreFinal(w, stock, run, more[..|more| - 1], o);
      assert (run + more)[..|run + more| - 1] == front;
      RunKeepsInv(w, stock, front);
      var s, t, a := Exec(w, Init(stock), run), Exec(w, Init(stock), front), more[|more| - 1];
      StepStands(w, t, a, o);
      StandsOn(s, t, Apply(w, t, a), o);
    }
  }

  /** A rejected order tells its customer that it had no lines, or names the product of one of them. */
  lemma RejectionNamesALine(w: Wiring, stock: Inventory.Stock, run: seq<Action>, o: OrderId)
    requires StatusIs(Exec(w, Init(stock), run).od, o, Rejected)
    ensures var row := Exec(w, Init(stock), run).od.orders[o];
            if Lines(row.items) == [] then row.reason == Some(NoItems)
            else exists l :: l in Lines(row.items) &&
                   (row.reason == Some(Insufficient(l.productId)) || row.reason == Some(Unknown(l.productId)))
  {
    var s := Exec(w, Init(stock), run);
    RunKeepsInv(w, stock, run);
    assert OrderInv(s, o);
    var lines, taken := Lines(s.od.orders[o].items), s.history.leaks[o];
    if lines != [] {
      assert Names(s.od.orders[o].reason, lines, taken);
      assert lines[|taken|] in lines;
    }
  }

  // ---- the release method the wrapper lacks ---------------------------------

  /** Behind the retrying wrapper no reservation is ever released. */
  lemma {:induction false} ResilientNeverReleases(stock: Inventory.Stock, run: seq<Action>, o: OrderId)
    ensures ReleasedId(o) !in Exec(Resilient, Init(stock), run).inv.outbox
  {
    if run == [] {
    } else {
      var s, a := Exec(Resilient, Init(stock), run[..|run| - 1]), run[|run| - 1];
      ResilientNeverReleases(stock, run[..|run| - 1], o);
      match a
      case OnOrder(x) => OrderFrame(s, x);
      case OnRelay(x) => RelayFrame(s, x);
      case OnCommand(x) => CommandFrame(Resilient, s, x);
      case OnPublish(x) => PublishFrame(s, x);
      case OnOutcome(x) => OutcomeFrame(s, x);
      case Adjust(_, _) =>
    }
  }

  /**
   * So with the wiring of the service's own main module no order ever becomes CANCELLED, and a cancel command
   * that has been delivered stays in the queue for ever.
   */
  lemma ResilientNeverCancels(stock: Inventory.Stock, run: seq<Action>, o: OrderId)
    ensures var s := Exec(Resilient, Init(stock), run);
            && !StatusIs(s.od, o, Cancelled)
            && (CancelId(o) in s.od.outbox && s.od.outbox[CancelId(o)].delivered ==>
                  Message(CancelId(o), s.od.outbox[CancelId(o)].payload) in s.commands.messages)
  {
    ResilientNeverReleases(stock, run, o);
    RunKeepsInv(Resilient, stock, run);
    assert OrderInv(Exec(Resilient, Init(stock), run), o);
  }
}
