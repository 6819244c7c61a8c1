/** From every reachable state the protocol can still settle every order: nothing it does leads into a dead end. */
module SagaCompletion {
  import opened Common
  import opened SagaTypes
  import opened Saga
  import opened SagaInvariant
  import opened SagaRuns
  import opened SagaTheorems
  import Checkout
  import Inventory
  import Orders

  ghost predicate Reaches(w: Wiring, s: State, t: State) {
    exists more :: Exec(w, s, more) == t
  }

  lemma ReachesStep(w: Wiring, s: State, t: State, a: Action)
    requires Reaches(w, s, t)
    ensures Reaches(w, s, Apply(w, t, a))
  {
    var more :| Exec(w, s, more) == t;
    assert (more + [a])[..|more|] == more;
    assert Exec(w, s, more + [a]) == Apply(w, t, a);
  }

  /** A relay can put the message of an unhandled row into the command queue. */
  lemma CommandCanBeQueued(w: Wiring, s: State, t: State, k: EventId) returns (u: State)
    requires Reaches(w, s, t) && Inv(t) && k in t.od.outbox && !k.FulfilmentId?
    requires !(if k.CreatedId? then k in t.inv.processed else ReleasedId(k.orderId) in t.inv.outbox)
    ensures Reaches(w, s, u) && Inv(u) && u.od == t.od && u.inv == t.inv
    ensures Message(k, t.od.outbox[k].payload) in u.commands.messages
  {
    var m := Message(k, t.od.outbox[k].payload);
    u := t;
    assert OrderInv(t, k.orderId);
    if m !in t.commands.messages {
      assert !t.od.outbox[k].delivered;
      var v := Apply(w, t, OnRelay(RelayRead(k)));
      u := Apply(w, v, OnRelay(RelaySend(m)));
      ReachesStep(w, s, t, OnRelay(RelayRead(k)));
      ReachesStep(w, s, v, OnRelay(RelaySend(m)));
      StepKeepsInv(w, t, OnRelay(RelayRead(k)));
      StepKeepsInv(w, v, OnRelay(RelaySend(m)));
    }
  }

  /** A publisher can put an unapplied outcome into the outcome queue, and the order service can apply it. */
  lemma OutcomeCanBeQueued(w: Wiring, s: State, t: State, id: OutcomeId) returns (u: State)
    requires Reaches(w, s, t) && Inv(t) && id in t.inv.outbox
    requires !Announcement(t.inv, id).verdict.OrderCancelled? ==>
              StatusIs(t.od, Announcement(t.inv, id).orderId, Pending)
    requires Announcement(t.inv, id).verdict.OrderCancelled? ==>
              StatusIs(t.od, Announcement(t.inv, id).orderId, CancelPending)
    ensures Reaches(w, s, u) && Inv(u) && u.od == t.od && u.inv == t.inv
    ensures Announcement(t.inv, id) in u.outcomes.messages
  {
    var e := Announcement(t.inv, id);
    u := t;
    assert GenuineOutcome(t.inv, e) && OrderInv(t, e.orderId);
    if e !in t.outcomes.messages {
      assert !t.inv.outbox[id].published;
      var v := Apply(w, t, OnPublish(OutRead(id)));
      u := Apply(w, v, OnPublish(OutSend(e)));
      ReachesStep(w, s, t, OnPublish(OutRead(id)));
      ReachesStep(w, s, v, OnPublish(OutSend(e)));
      StepKeepsInv(w, t, OnPublish(OutRead(id)));
      StepKeepsInv(w, v, OnPublish(OutSend(e)));
    }
  }

  lemma CommandTaken(w: Wiring, s: State, t: State, m: Message) returns (u: State)
    requires Reaches(w, s, t) && Inv(t) && m in t.commands.messages
    ensures Reaches(w, s, u) && Inv(u) && u.od == t.od && u.inv == HandleCommand(w, t.inv, m, 0).0
  {
    var a := OnCommand(TakeCommand(m, 0));
    u := Apply(w, t, a);
    ReachesStep(w, s, t, a);
    StepKeepsInv(w, t, a);
  }

  lemma OutcomeTaken(w: Wiring, s: State, t: State, e: Outcome) returns (u: State)
    requires Reaches(w, s, t) && Inv(t) && e in t.outcomes.messages
    requires StatusIs(t.od, e.orderId, SourceStatus(e.verdict))
    ensures Reaches(w, s, u) && Inv(u) && StatusIs(u.od, e.orderId, TargetStatus(e.verdict))
    ensures u.od.orders[e.orderId].userId == t.od.orders[e.orderId].userId
            && u.od.orders[e.orderId].fulfilment == t.od.orders[e.orderId].fulfilment
  {
    var a := OnOutcome(TakeOutcome(e, 0));
    u := Apply(w, t, a);
    ReachesStep(w, s, t, a);
    StepKeepsInv(w, t, a);
  }

  /** The order named by an unapplied outcome can be settled. */
  lemma SettleOutcome(w: Wiring, s: State, t: State, id: OutcomeId) returns (u: State)
    requires Reaches(w, s, t) && Inv(t) && id in t.inv.outbox
    requires StatusIs(t.od, Announcement(t.inv, id).orderId, SourceStatus(Announcement(t.inv, id).verdict))
    ensures var e := Announcement(t.inv, id);
            && Reaches(w, s, u) && Inv(u) && StatusIs(u.od, e.orderId, TargetStatus(e.verdict))
            && u.od.orders[e.orderId].userId == t.od.orders[e.orderId].userId
            && u.od.orders[e.orderId].fulfilment == t.od.orders[e.orderId].fulfilment
  {
    var v := OutcomeCanBeQueued(w, s, t, id);
    u := OutcomeTaken(w, s, v, Announcement(t.inv, id));
  }

  lemma ReachesItself(w: Wiring, s: State)
    ensures Reaches(w, s, s)
  {
    assert Exec(w, s, []) == s;
  }

  /** With the repository itself behind the consumer, every cancellation can be completed. */
  lemma CancellationCanFinish(stock: Inventory.Stock, run: seq<Action>, o: OrderId)
    requires StatusIs(Exec(Bare, Init(stock), run).od, o, CancelPending)
    ensures exists t :: Reaches(Bare, Exec(Bare, Init(stock), run), t) && StatusIs(t.od, o, Cancelled)
  {
    var s := Exec(Bare, Init(stock), run);
    RunKeepsInv(Bare, stock, run);
    ReachesItself(Bare, s);
    assert OrderInv(s, o);
    var t := s;
    if ReleasedId(o) !in s.inv.outbox {
      var m := Message(CancelId(o), s.od.outbox[CancelId(o)].payload);
      t := CommandCanBeQueued(Bare, s, s, CancelId(o));
      ReleaseFindsRows(s, o);
      t := CommandTaken(Bare, s, t, m);
    }
    assert OrderInv(t, o);
    var u := SettleOutcome(Bare, s, t, ReleasedId(o));
  }

  /** Every order whose lines the ledger accepts (distinct products, positive quantities) can still be decided. */
  lemma PendingCanBeDecided(w: Wiring, stock: Inventory.Stock, run: seq<Action>, o: OrderId)
    requires StatusIs(Exec(w, Init(stock), run).od, o, Pending)
    requires Inventory.Insertable(map[], Lines(Exec(w, Init(stock), run).od.orders[o].items))
    ensures exists t :: Reaches(w, Exec(w, Init(stock), run), t) &&
              (StatusIs(t.od, o, Confirmed) || StatusIs(t.od, o, Rejected))
  {
    var s := Exec(w, Init(stock), run);
    RunKeepsInv(w, stock, run);
    ReachesItself(w, s);
    assert OrderInv(s, o);
    var t := s;
    if CreatedId(o) !in s.inv.processed {
      t := CommandCanBeQueued(w, s, s, CreatedId(o));
      t := CommandTaken(w, s, t, Message(CreatedId(o), s.od.outbox[CreatedId(o)].payload));
    }
    assert OrderInv(t, o);
    var u := SettleOutcome(w, s, t, Decision(o));
  }

  lemma {:induction false} NamedLinesStay(items: seq<Line>)
    requires forall i :: 0 <= i < |items| ==> items[i].productId != ""
    ensures Lines(items) == items
  {
    if items == [] {
    } else {
      NamedLinesStay(items[..|items| - 1]);
      assert items == items[..|items| - 1] + [items[|items| - 1]];
    }
  }

  /** So every order that a validated request creates, with its repeated products merged, can still be decided. */
  lemma RequestedOrderCanBeDecided(w: Wiring, stock: Inventory.Stock, run: seq<Action>, o: OrderId, lines: seq<Line>)
    requires Inventory.Positive(lines) && forall i :: 0 <= i < |lines| ==> lines[i].productId != ""
    requires var s := Exec(w, Init(stock), run);
             StatusIs(s.od, o, Pending) && s.od.orders[o].items == Checkout.Merged(lines, Checkout.Firsts(lines))
    ensures exists t :: Reaches(w, Exec(w, Init(stock), run), t) &&
              (StatusIs(t.od, o, Confirmed) || StatusIs(t.od, o, Rejected))
  {
    var items := Checkout.Merged(lines, Checkout.Firsts(lines));
    Checkout.MergedIsInsertable(lines);
    forall j | 0 <= j < |items| ensures items[j].productId != "" {
      assert Checkout.Firsts(lines)[j] in Checkout.Firsts(lines);
    }
    NamedLinesStay(items);
    PendingCanBeDecided(w, stock, run, o);
  }

  // ---- the cancellation that never finishes ---------------------------------

  lemma OrderCanBePlaced(w: Wiring, stock: Inventory.Stock, o: OrderId, user: UserId, items: seq<Line>)
    returns (t: State)
    ensures Reaches(w, Init(stock), t) && Inv(t) && t.inv == Init(stock).inv && CreatedId(o) in t.od.outbox
    ensures t.od.orders == map[o := Orders.Order(user, None, items, Pending, NotStarted, None, 0)]
    ensures t.od.outbox[CreatedId(o)].payload == OrderCreated(o, user, None, items)
  {
    var s, a := Init(stock), OnOrder(Place(o, user, None, items, 0));
    t := Apply(w, s, a);
    InitInv(stock);
    ReachesItself(w, s);
    ReachesStep(w, s, s, a);
    StepKeepsInv(w, s, a);
  }

  /** Inventory confirms an order that its stock covers. */
  lemma CoveredIsConfirmed(stock: Inventory.Stock, o: OrderId, items: seq<Line>)
    requires Inventory.Insertable(map[], Lines(items)) && Inventory.Refusal(stock, Lines(items)) == None
    ensures var db := Inventory.Db(stock, {}, map[], map[]);
            var inv := Inventory.ProcessOrder(db, CreatedId(o), o, Lines(items), 0).0;
            && Decision(o) in inv.outbox
            && inv.outbox[Decision(o)].verdict == OrderConfirmed && inv.outbox[Decision(o)].orderId == o
  {
  }

  /** A new order that the stock covers can be confirmed, under either wiring. */
  lemma CoveredOrderCanBeConfirmed(w: Wiring, stock: Inventory.Stock, o: OrderId, user: UserId, items: seq<Line>)
    returns (u: State)
    requires Inventory.Insertable(map[], Lines(items)) && Inventory.Refusal(stock, Lines(items)) == None
    ensures Reaches(w, Init(stock), u) && Inv(u) && StatusIs(u.od, o, Confirmed)
    ensures u.od.orders[o].userId == user && u.od.orders[o].fulfilment == NotStarted
  {
    var t := OrderCanBePlaced(w, stock, o, user, items);
    var m := Message(CreatedId(o), t.od.outbox[CreatedId(o)].payload);
    var v := CommandCanBeQueued(w, Init(stock), t, CreatedId(o));
    v := CommandTaken(w, Init(stock), v, m);
    CoveredIsConfirmed(stock, o, items);
    u := SettleOutcome(w, Init(stock), v, Decision(o));
  }

  /** Its owner can then ask for cancellation. */
  lemma ConfirmedCanBeAskedToCancel(w: Wiring, s: State, t: State, o: OrderId) returns (u: State)
    requires Reaches(w, s, t) && Inv(t) && StatusIs(t.od, o, Confirmed)
    requires t.od.orders[o].fulfilment in {NotStarted, Packing}
    ensures Reaches(w, s, u) && StatusIs(u.od, o, CancelPending)
  {
    var row := t.od.orders[o];
    var look, ask := OnOrder(Read(o)), OnOrder(Cancel(o, row, row.userId, None, 0));
    assert OrderInv(t, o);
    var v := Apply(w, t, look);
    u := Apply(w, v, ask);
    ReachesStep(w, s, t, look);
    ReachesStep(w, s, v, ask);
  }

  /** Behind the retrying wrapper a pending cancellation stays pending, whatever else happens. */
  lemma {:induction false} PendingCancellationStays(stock: Inventory.Stock, run: seq<Action>, more: seq<Action>,
          o: OrderId)
    requires StatusIs(Exec(Resilient, Init(stock), run).od, o, CancelPending)
    ensures StatusIs(Exec(Resilient, Init(stock), run + more).od, o, CancelPending)
  {
    if more == [] {
      assert run + more == run;
    } else {
      var all, n := run + more, |run + more| - 1;
      PendingCancellationStays(stock, run, more[..|more| - 1], o);
      assert all[..n] == run + more[..|more| - 1] && all[..n + 1] == all;
      HistoryIsAPath(Resilient, stock, all, n, o);
      ResilientNeverCancels(stock, all, o);
    }
  }

  ghost predicate Stuck(stock: Inventory.Stock, run: seq<Action>, o: OrderId) {
    && StatusIs(Exec(Resilient, Init(stock), run).od, o, CancelPending)
    && forall more :: StatusIs(Exec(Resilient, Init(stock), run + more).od, o, CancelPending)
  }

  /**
   * The stuck cancellation, for every stock and every order it covers: with the wiring of the service's own main
   * module there is a run that leaves the order CANCEL_PENDING, and every continuation of that run leaves it so.
   */
  lemma CancellationCanStickForever(stock: Inventory.Stock, o: OrderId, user: UserId, items: seq<Line>)
    requires Inventory.Insertable(map[], Lines(items)) && Inventory.Refusal(stock, Lines(items)) == None
    ensures exists run :: Stuck(stock, run, o)
  {
    var t := CoveredOrderCanBeConfirmed(Resilient, stock, o, user, items);
    var u := ConfirmedCanBeAskedToCancel(Resilient, Init(stock), t, o);
    var run :| Exec(Resilient, Init(stock), run) == u;
    forall more ensures StatusIs(Exec(Resilient, Init(stock), run + more).od, o, CancelPending) {
      PendingCancellationStays(stock, run, more, o);
    }
    assert Stuck(stock, run, o);
  }
}
