/** What every step of the saga preserves, and what therefore holds after every run. */
module SagaRuns {
  import opened Common
  import opened SagaTypes
  import opened Messaging
  import opened Saga
  import opened SagaInvariant
  import Inventory
  import Orders

  // ---- one step never rewrites history --------------------------------------

  /** The edges of the order life cycle. */
  predicate Edge(s: Status, f: Fulfilment, t: Status, g: Fulfilment) {
    || (s == Pending && t in {Confirmed, Rejected} && f == g == NotStarted)
    || (s == Confirmed && t == Confirmed && g.Rank() == f.Rank() + 1)
    || (s == Confirmed && t == CancelPending && f == g && f in {NotStarted, Packing})
    || (s == CancelPending && t == Cancelled && f == g && f in {NotStarted, Packing})
  }

  ghost predicate OrdersAdvance(od: Orders.Db, od': Orders.Db) {
    && (forall o :: o in od.orders ==>
          && o in od'.orders && Orders.SameIdentity(od.orders[o], od'.orders[o])
          && var (a, b) := (od.orders[o], od'.orders[o]);
             (a.status == b.status && a.fulfilment == b.fulfilment)
             || Edge(a.status, a.fulfilment, b.status, b.fulfilment))
    && (forall o :: o in od'.orders && o !in od.orders ==>
          od'.orders[o].status == Pending && od'.orders[o].fulfilment == NotStarted)
    && (forall k :: k in od.outbox ==> k in od'.outbox && od'.outbox[k].payload == od.outbox[k].payload)
  }

  ghost predicate OutcomesKept(inv: Inventory.Db, inv': Inventory.Db) {
    && inv.processed <= inv'.processed
    && (forall id :: id in inv.outbox ==> id in inv'.outbox && Announcement(inv', id) == Announcement(inv, id))
  }

  lemma MarkingAdvances(od: Orders.Db, inv: Inventory.Db, k: EventId, id: OutcomeId)
    ensures OrdersAdvance(od, od) && OrdersAdvance(od, Orders.MarkDelivered(od, k))
    ensures OutcomesKept(inv, inv) && OutcomesKept(inv, Inventory.MarkPublished(inv, id))
  {
  }

  lemma PlaceAdvances(s: State, o: OrderId, user: UserId, email: Option<string>, items: seq<Line>, now: int)
    ensures OrdersAdvance(s.od, PlaceStep(s, o, user, email, items, now).od)
  {
  }

  lemma AdvanceAdvances(s: State, o: OrderId, read: Orders.Order, target: Fulfilment, now: int)
    ensures OrdersAdvance(s.od, AdvanceStep(s, o, read, target, now).od)
  {
  }

  lemma CancelAdvances(s: State, o: OrderId, read: Orders.Order, user: UserId, email: Option<string>, now: int)
    ensures OrdersAdvance(s.od, CancelStep(s, o, read, user, email, now).od)
  {
  }

  lemma OrderStepAdvances(s: State, a: OrderAction)
    ensures OrdersAdvance(s.od, OrderStep(s, a).od)
  {
    match a
    case Place(o, user, email, items, now) => PlaceAdvances(s, o, user, email, items, now);
    case Read(_) => MarkingAdvances(s.od, s.inv, CreatedId(a.o), ReleasedId(a.o));
    case Advance(o, read, target, now) => AdvanceAdvances(s, o, read, target, now);
    case Cancel(o, read, user, email, now) => CancelAdvances(s, o, read, user, email, now);
  }

  lemma TakeOutcomeAdvances(s: State, e: Outcome, now: int)
    requires OrderInv(s, e.orderId) && GenuineOutcome(s.inv, e)
    ensures OrdersAdvance(s.od, HandleOutcome(s.od, e, now).0)
  {
  }

  lemma OutcomeStepAdvances(s: State, a: OutcomeAction)
    requires OrderInv(s, a.e.orderId) && GenuineOutcomes(s.inv, s.publisher, s.outcomes)
    ensures OrdersAdvance(s.od, OutcomeStep(s, a).od)
  {
    OutcomeFrame(s, a);
    if a.TakeOutcome? && a.e in s.outcomes.messages {
      assert Moving(s.publisher, s.outcomes, a.e);
      TakeOutcomeAdvances(s, a.e, a.now);
    } else {
      MarkingAdvances(s.od, s.inv, CreatedId(""), ReleasedId(""));
    }
  }

  /**
   * Every order's (status, fulfilment) history is a path of the fixed graph `Edge`, an order appears as
   * PENDING and NOT_STARTED, and nothing written to the order outbox changes.
   */
  lemma StepAdvances(w: Wiring, s: State, a: Action)
    requires Inv(s)
    ensures OrdersAdvance(s.od, Apply(w, s, a).od)
  {
    MarkingAdvances(s.od, s.inv, if a.OnRelay? && a.relay.RelayMark? then a.relay.m.eventId else CreatedId(""),
                    ReleasedId(""));
    match a
    case OnOrder(x) => OrderStepAdvances(s, x);
    case OnRelay(x) => RelayFrame(s, x);
    case OnCommand(x) => CommandFrame(w, s, x);
    case OnPublish(x) => PublishFrame(s, x);
    case OnOutcome(x) => assert OrderInv(s, x.e.orderId); OutcomeStepAdvances(s, x);
    case Adjust(_, _) =>
  }

  lemma TakeCommandKeepsOutcomes(w: Wiring, s: State, m: Message, now: int)
    requires OrderInv(s, m.eventId.orderId) && GenuineMessage(s.od, m) && !m.eventId.FulfilmentId?
    ensures OutcomesKept(s.inv, HandleCommand(w, s.inv, m, now).0)
  {
    var inv' := HandleCommand(w, s.inv, m, now).0;
    CommandAddsOutcomes(w, s.od, s.inv, s.history.leaks, m, now, ReleasedId(""));
    forall id | id in s.inv.outbox ensures id in inv'.outbox && Announcement(inv', id) == Announcement(s.inv, id) {
      CommandAddsOutcomes(w, s.od, s.inv, s.history.leaks, m, now, id);
    }
  }

  lemma CommandStepKeepsOutcomes(w: Wiring, s: State, a: CommandAction)
    requires OrderInv(s, a.m.eventId.orderId) && GenuineCommands(s.od, s.relay, s.commands)
    ensures OutcomesKept(s.inv, CommandStep(w, s, a).inv)
  {
    CommandFrame(w, s, a);
    if a.TakeCommand? && a.m in s.commands.messages {
      assert Moving(s.relay, s.commands, a.m) && Queued(s.commands, a.m);
      TakeCommandKeepsOutcomes(w, s, a.m, a.now);
    } else {
      MarkingAdvances(s.od, s.inv, CreatedId(""), ReleasedId(""));
    }
  }

  /** A receipt stays, and an outcome once recorded keeps its verdict: decisions are stable. */
  lemma StepKeepsOutcomes(w: Wiring, s: State, a: Action)
    requires Inv(s)
    ensures OutcomesKept(s.inv, Apply(w, s, a).inv)
  {
    MarkingAdvances(s.od, s.inv, CreatedId(""),
                    if a.OnPublish? && a.publish.OutMark? then a.publish.e.id else ReleasedId(""));
    match a
    case OnOrder(x) => OrderFrame(s, x);
    case OnRelay(x) => RelayFrame(s, x);
    case OnCommand(x) => assert OrderInv(s, x.m.eventId.orderId); CommandStepKeepsOutcomes(w, s, x);
    case OnPublish(x) => PublishFrame(s, x);
    case OnOutcome(x) => OutcomeFrame(s, x);
    case Adjust(_, _) =>
  }

  // ---- messages stay genuine ------------------------------------------------

  lemma CommandsStayGenuine(od: Orders.Db, od': Orders.Db, w: Workers<Message>, q: Queue<Message>,
                            w': Workers<Message>, q': Queue<Message>)
    requires GenuineCommands(od, w, q) && OrdersAdvance(od, od')
    requires forall m :: Moving(w', q', m) ==> Moving(w, q, m) || GenuineMessage(od, m)
    requires forall m :: Queued(q', m) ==> Queued(q, m) || !m.eventId.FulfilmentId?
    ensures GenuineCommands(od', w', q')
  {
  }

  lemma OutcomesStayGenuine(inv: Inventory.Db, inv': Inventory.Db, w: Workers<Outcome>, q: Queue<Outcome>,
                            w': Workers<Outcome>, q': Queue<Outcome>)
    requires GenuineOutcomes(inv, w, q) && OutcomesKept(inv, inv')
    requires forall id :: id in inv'.outbox && id !in inv.outbox ==> GenuineOutcome(inv', Announcement(inv', id))
    requires forall e :: Moving(w', q', e) ==> Moving(w, q, e) || GenuineOutcome(inv, e)
    ensures GenuineOutcomes(inv', w', q')
  {
    forall id | id in inv'.outbox ensures GenuineOutcome(inv', Announcement(inv', id)) {
      if id in inv.outbox { assert GenuineOutcome(inv, Announcement(inv, id)); }
    }
  }

  lemma ReadRowsAreGenuine(s: State, k: EventId, m: Message)
    ensures Moving(RelayStep(s, RelayRead(k)).relay, s.commands, m) ==>
              Moving(s.relay, s.commands, m) || GenuineMessage(s.od, m)
  {
    if k in s.od.outbox { NothingFromNowhere(s.relay, s.commands, Message(k, s.od.outbox[k].payload), m); }
  }

  lemma RelayMovesGenuine(s: State, a: RelayAction, m: Message)
    ensures Moving(RelayStep(s, a).relay, RelayStep(s, a).commands, m) ==>
              Moving(s.relay, s.commands, m) || GenuineMessage(s.od, m)
  {
    if a.RelayRead? {
      ReadRowsAreGenuine(s, a.k, m);
    } else {
      NothingFromNowhere(s.relay, s.commands, a.m, m);
    }
  }

  lemma RelayQueuesNoFulfilment(s: State, a: RelayAction, m: Message)
    ensures Queued(RelayStep(s, a).commands, m) ==> Queued(s.commands, m) || !m.eventId.FulfilmentId?
  {
    if a.RelaySend? { NothingFromNowhere(s.relay, s.commands, a.m, m); }
  }

  lemma RelayKeepsGenuine(s: State, a: RelayAction)
    requires GenuineCommands(s.od, s.relay, s.commands) && OrdersAdvance(s.od, RelayStep(s, a).od)
    ensures GenuineCommands(RelayStep(s, a).od, RelayStep(s, a).relay, RelayStep(s, a).commands)
  {
    var t := RelayStep(s, a);
    forall m ensures Moving(t.relay, t.commands, m) ==> Moving(s.relay, s.commands, m) || GenuineMessage(s.od, m) {
      RelayMovesGenuine(s, a, m);
    }
    forall m ensures Queued(t.commands, m) ==> Queued(s.commands, m) || !m.eventId.FulfilmentId? {
      RelayQueuesNoFulfilment(s, a, m);
    }
    CommandsStayGenuine(s.od, t.od, s.relay, s.commands, t.relay, t.commands);
  }

  lemma CommandQueueMoves(w: Wiring, s: State, a: CommandAction, m: Message)
    ensures Queued(CommandStep(w, s, a).commands, m) ==> Queued(s.commands, m)
  {
    NothingFromNowhere(s.relay, s.commands, a.m, m);
  }

  lemma CommandKeepsGenuine(w: Wiring, s: State, a: CommandAction)
    requires GenuineCommands(s.od, s.relay, s.commands)
    ensures GenuineCommands(s.od, s.relay, CommandStep(w, s, a).commands)
  {
    forall m ensures Queued(CommandStep(w, s, a).commands, m) ==> Queued(s.commands, m) {
      CommandQueueMoves(w, s, a, m);
    }
    MarkingAdvances(s.od, s.inv, CreatedId(""), ReleasedId(""));
    CommandsStayGenuine(s.od, s.od, s.relay, s.commands, s.relay, CommandStep(w, s, a).commands);
  }

  lemma StepKeepsGenuineCommands(w: Wiring, s: State, a: Action)
    requires GenuineCommands(s.od, s.relay, s.commands) && OrdersAdvance(s.od, Apply(w, s, a).od)
    ensures var t := Apply(w, s, a); GenuineCommands(t.od, t.relay, t.commands)
  {
    match a
    case OnOrder(x) =>
      OrderFrame(s, x);
      CommandsStayGenuine(s.od, OrderStep(s, x).od, s.relay, s.commands, s.relay, s.commands);
    case OnRelay(x) => RelayKeepsGenuine(s, x);
    case OnCommand(x) => CommandFrame(w, s, x); CommandKeepsGenuine(w, s, x);
    case OnPublish(x) => PublishFrame(s, x);
    case OnOutcome(x) =>
      OutcomeFrame(s, x);
      CommandsStayGenuine(s.od, OutcomeStep(s, x).od, s.relay, s.commands, s.relay, s.commands);
    case Adjust(_, _) =>
  }

  lemma ReadOutcomesAreGenuine(s: State, id: OutcomeId, e: Outcome)
    requires GenuineOutcomes(s.inv, s.publisher, s.outcomes)
    ensures Moving(PublishStep(s, OutRead(id)).publisher, s.outcomes, e) ==>
              Moving(s.publisher, s.outcomes, e) || GenuineOutcome(s.inv, e)
  {
    if id in s.inv.outbox { NothingFromNowhere(s.publisher, s.outcomes, Announcement(s.inv, id), e); }
  }

  lemma PublishMovesGenuine(s: State, a: PublishAction, e: Outcome)
    requires GenuineOutcomes(s.inv, s.publisher, s.outcomes)
    ensures Moving(PublishStep(s, a).publisher, PublishStep(s, a).outcomes, e) ==>
              Moving(s.publisher, s.outcomes, e) || GenuineOutcome(s.inv, e)
  {
    if a.OutRead? {
      ReadOutcomesAreGenuine(s, a.id, e);
    } else {
      NothingFromNowhere(s.publisher, s.outcomes, a.e, e);
    }
  }

  lemma PublishKeepsGenuine(s: State, a: PublishAction)
    requires GenuineOutcomes(s.inv, s.publisher, s.outcomes)
    ensures GenuineOutcomes(PublishStep(s, a).inv, PublishStep(s, a).publisher, PublishStep(s, a).outcomes)
  {
    var t := PublishStep(s, a);
    PublishFrame(s, a);
    MarkingAdvances(s.od, s.inv, CreatedId(""), if a.OutMark? then a.e.id else ReleasedId(""));
    forall e
      ensures Moving(t.publisher, t.outcomes, e) ==> Moving(s.publisher, s.outcomes, e) || GenuineOutcome(s.inv, e)
    {
      PublishMovesGenuine(s, a, e);
    }
    OutcomesStayGenuine(s.inv, t.inv, s.publisher, s.outcomes, t.publisher, t.outcomes);
  }

  lemma OutcomeQueueMoves(s: State, a: OutcomeAction, e: Outcome)
    ensures Queued(OutcomeStep(s, a).outcomes, e) ==> Queued(s.outcomes, e)
  {
    NothingFromNowhere(s.publisher, s.outcomes, a.e, e);
  }

  lemma OutcomeKeepsGenuine(s: State, a: OutcomeAction)
    requires GenuineOutcomes(s.inv, s.publisher, s.outcomes)
    ensures GenuineOutcomes(s.inv, s.publisher, OutcomeStep(s, a).outcomes)
  {
    forall e ensures Queued(OutcomeStep(s, a).outcomes, e) ==> Queued(s.outcomes, e) { OutcomeQueueMoves(s, a, e); }
    MarkingAdvances(s.od, s.inv, CreatedId(""), ReleasedId(""));
    OutcomesStayGenuine(s.inv, s.inv, s.publisher, s.outcomes, s.publisher, OutcomeStep(s, a).outcomes);
  }

  lemma TakeCommandKeepsGenuine(w: Wiring, s: State, a: CommandAction)
    requires Genuine(s) && OrderInv(s, a.m.eventId.orderId)
    ensures GenuineOutcomes(CommandStep(w, s, a).inv, s.publisher, s.outcomes)
  {
    CommandFrame(w, s, a);
    if a.TakeCommand? && a.m in s.commands.messages {
      var inv' := CommandStep(w, s, a).inv;
      assert Moving(s.relay, s.commands, a.m) && Queued(s.commands, a.m);
      TakeCommandKeepsOutcomes(w, s, a.m, a.now);
      forall id | id in inv'.outbox && id !in s.inv.outbox ensures GenuineOutcome(inv', Announcement(inv', id)) {
        CommandAddsOutcomes(w, s.od, s.inv, s.history.leaks, a.m, a.now, id);
      }
      OutcomesStayGenuine(s.inv, inv', s.publisher, s.outcomes, s.publisher, s.outcomes);
    }
  }

  lemma StepKeepsGenuineOutcomes(w: Wiring, s: State, a: Action)
    requires Inv(s)
    ensures var t := Apply(w, s, a); GenuineOutcomes(t.inv, t.publisher, t.outcomes)
  {
    match a
    case OnOrder(x) => OrderFrame(s, x);
    case OnRelay(x) => RelayFrame(s, x);
    case OnCommand(x) =>
      CommandFrame(w, s, x);
      assert OrderInv(s, x.m.eventId.orderId);
      TakeCommandKeepsGenuine(w, s, x);
    case OnPublish(x) => PublishKeepsGenuine(s, x);
    case OnOutcome(x) => OutcomeFrame(s, x); OutcomeKeepsGenuine(s, x);
    case Adjust(_, _) =>
  }

  lemma ReadsPersist(od: Orders.Db, od': Orders.Db, seen: set<(OrderId, Orders.Order)>)
    requires ReadsHold(od, seen) && OrdersAdvance(od, od')
    ensures ReadsHold(od', seen)
  {
  }

  lemma ReadIsSound(s: State, o: OrderId)
    requires ReadsHold(s.od, s.seen)
    ensures ReadsHold(s.od, ReadStep(s, o).seen)
  {
    forall x, r | (x, r) in ReadStep(s, o).seen ensures x in s.od.orders && Orders.SameIdentity(r, s.od.orders[x]) {
      if (x, r) !in s.seen { assert (x, r) == (o, s.od.orders[o]); }
    }
  }

  lemma StepKeepsReads(w: Wiring, s: State, a: Action)
    requires ReadsHold(s.od, s.seen) && OrdersAdvance(s.od, Apply(w, s, a).od)
    ensures ReadsHold(Apply(w, s, a).od, Apply(w, s, a).seen)
  {
    ReadsPersist(s.od, Apply(w, s, a).od, s.seen);
    match a
    case OnOrder(x) => if x.Read? { ReadIsSound(s, x.o); }
    case OnRelay(x) => RelayFrame(s, x);
    case OnCommand(x) => CommandFrame(w, s, x);
    case OnPublish(x) => PublishFrame(s, x);
    case OnOutcome(x) => OutcomeFrame(s, x);
    case Adjust(_, _) =>
  }

  // ---- every run ------------------------------------------------------------

  lemma StepKeepsInv(w: Wiring, s: State, a: Action)
    requires Inv(s)
    ensures Inv(Apply(w, s, a))
  {
    StepAdvances(w, s, a);
    StepKeepsGenuineCommands(w, s, a);
    StepKeepsGenuineOutcomes(w, s, a);
    StepKeepsReads(w, s, a);
    forall o ensures OrderInv(Apply(w, s, a), o) { StepKeepsOrder(w, s, a, o); }
  }

  lemma InitInv(stock: Inventory.Stock)
    ensures Inv(Init(stock))
  {
    forall o ensures OrderInv(Init(stock), o) {}
  }

  /** The invariant holds after every run, whatever is duplicated, delayed, reordered or lost on the way. */
  lemma {:induction false} RunKeepsInv(w: Wiring, stock: Inventory.Stock, run: seq<Action>)
    ensures Inv(Exec(w, Init(stock), run))
  {
    if run == [] {
      InitInv(stock);
    } else {
      RunKeepsInv(w, stock, run[..|run| - 1]);
      StepKeepsInv(w, Exec(w, Init(stock), run[..|run| - 1]), run[|run| - 1]);
    }
  }
}
