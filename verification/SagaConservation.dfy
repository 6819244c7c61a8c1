/** Stock is neither created nor lost by the saga, except where a rejected order keeps its committed prefix. */
module SagaConservation {
  import opened Common
  import opened SagaTypes
  import opened Messaging
  import opened Saga
  import opened SagaInvariant
  import opened SagaRuns
  import Inventory

  ghost function LeakOf(leaks: map<OrderId, seq<Line>>, o: OrderId, p: ProductId): int {
    if o in leaks then Inventory.Qty(leaks[o], p) else 0
  }

  /** What an order keeps out of stock: its RESERVED ledger rows, and the prefix its rejection left committed. */
  ghost function Share(s: State, o: OrderId, p: ProductId): int {
    Inventory.Held(Inventory.RowsOf(s.inv.ledger, o), p) + LeakOf(s.history.leaks, o, p)
  }

  ghost function Shares(s: State, p: ProductId): map<OrderId, int> {
    map o | o in s.od.orders :: Share(s, o, p)
  }

  ghost predicate Balanced(s: State, p: ProductId) {
    Inventory.OnHand(s.inv.stock, p) + MapSum(Shares(s, p)) == ValueOr(s.history.supply, p)
  }

  ghost predicate LedgerStocked(ledger: map<OrderId, Inventory.Rows>, stock: Inventory.Stock) {
    forall o, p :: o in ledger && p in ledger[o] ==> p in stock && ledger[o][p].quantity > 0
  }

  ghost predicate StockInv(s: State) {
    && Inventory.NonNegative(s.inv.stock)
    && s.history.supply.Keys == s.inv.stock.Keys
    && LedgerStocked(s.inv.ledger, s.inv.stock)
    && (forall p :: Balanced(s, p))
  }

  /** A step that touches only the share of `o`, and stock by the same amount, stays balanced. */
  lemma ShareMoves(s: State, t: State, o: OrderId, p: ProductId)
    requires Balanced(s, p) && o in s.od.orders && t.od == s.od && t.history.supply == s.history.supply
    requires forall x :: x != o ==> Share(t, x, p) == Share(s, x, p)
    requires Inventory.OnHand(t.inv.stock, p) + Share(t, o, p) == Inventory.OnHand(s.inv.stock, p) + Share(s, o, p)
    ensures Balanced(t, p)
  {
    MapSumUpdate(Shares(s, p), o, Share(t, o, p));
    assert Shares(t, p) == Shares(s, p)[o := Share(t, o, p)];
  }

  lemma SharesKept(s: State, t: State, p: ProductId)
    requires Balanced(s, p) && t.inv.stock == s.inv.stock && t.history.supply == s.history.supply
    requires t.inv.ledger == s.inv.ledger && t.history.leaks == s.history.leaks && t.od.orders.Keys == s.od.orders.Keys
    ensures Balanced(t, p)
  {
    assert Shares(t, p) == Shares(s, p);
  }

  /** A product that is not stocked appears in no taken line. */
  lemma {:induction false} UnstockedNotTaken(stock: Inventory.Stock, lines: seq<Line>, k: nat, p: ProductId)
    requires k <= Inventory.Taken(stock, lines) && p !in stock
    ensures Inventory.Qty(lines[..k], p) == 0
  {
    forall i | 0 <= i < k ensures lines[..k][i].productId != p { assert !Inventory.Short(stock, lines, i); }
    Inventory.QtyZeroIfAbsent(lines[..k], p);
  }

  lemma ProcessShare(s: State, m: Message, now: int, p: ProductId)
    requires m.body.OrderCreated? && m.eventId == CreatedId(m.body.orderId) && OrderInv(s, m.body.orderId)
    ensures var inv', h' := HandleCommand(Bare, s.inv, m, now).0, NoteLeak(s.history, s.inv, m, now);
            var o := m.body.orderId;
            Inventory.OnHand(inv'.stock, p)
            + Inventory.Held(Inventory.RowsOf(inv'.ledger, o), p) + LeakOf(h'.leaks, o, p)
            == Inventory.OnHand(s.inv.stock, p) + Share(s, o, p)
  {
    var lines := Lines(m.body.items);
    if p in s.inv.stock {
      Inventory.ProcessOrderConserves(s.inv, m.eventId, m.body.orderId, lines, now, p);
    } else if m.eventId !in s.inv.processed {
      UnstockedNotTaken(s.inv.stock, lines, Inventory.Taken(s.inv.stock, lines), p);
      assert lines[..|lines|] == lines;
      if Inventory.Insertable(Inventory.RowsOf(s.inv.ledger, m.body.orderId), lines) {
        Inventory.NewRowsHold(Inventory.RowsOf(s.inv.ledger, m.body.orderId), lines, p);
      }
    }
  }

  lemma ReleaseShare(s: State, o: OrderId, now: int, p: ProductId)
    requires p in Inventory.RowsOf(s.inv.ledger, o) ==> p in s.inv.stock
    ensures var inv' := Inventory.Release(s.inv, o, now).0;
            Inventory.OnHand(inv'.stock, p) + Inventory.Held(Inventory.RowsOf(inv'.ledger, o), p)
            == Inventory.OnHand(s.inv.stock, p) + Inventory.Held(Inventory.RowsOf(s.inv.ledger, o), p)
  {
    Inventory.ReleaseReturnsWhatWasHeld(s.inv, o, now, now);
  }

  lemma TakeCreatedBalanced(w: Wiring, s: State, m: Message, now: int, p: ProductId)
    requires Balanced(s, p) && OrderInv(s, m.eventId.orderId) && GenuineMessage(s.od, m) && m.eventId.CreatedId?
    requires m in s.commands.messages
    ensures Balanced(TakeCommandStep(w, s, m, now), p)
  {
    ProcessShare(s, m, now, p);
    ShareMoves(s, TakeCommandStep(w, s, m, now), m.eventId.orderId, p);
  }

  lemma TakeCancelBalanced(s: State, m: Message, now: int, p: ProductId)
    requires StockInv(s) && OrderInv(s, m.eventId.orderId) && GenuineMessage(s.od, m) && m.eventId.CancelId?
    requires m in s.commands.messages
    ensures Balanced(TakeCommandStep(Bare, s, m, now), p)
  {
    assert Balanced(s, p);
    ReleaseShare(s, m.eventId.orderId, now, p);
    ShareMoves(s, TakeCommandStep(Bare, s, m, now), m.eventId.orderId, p);
  }

  lemma TakeCommandBalanced(w: Wiring, s: State, m: Message, now: int, p: ProductId)
    requires StockInv(s) && OrderInv(s, m.eventId.orderId) && GenuineMessage(s.od, m) && !m.eventId.FulfilmentId?
    requires m in s.commands.messages
    ensures Balanced(TakeCommandStep(w, s, m, now), p)
  {
    assert Balanced(s, p);
    if m.eventId.CreatedId? {
      TakeCreatedBalanced(w, s, m, now, p);
    } else if w == Bare {
      TakeCancelBalanced(s, m, now, p);
    } else {
      SharesKept(s, TakeCommandStep(w, s, m, now), p);
    }
  }

  lemma {:induction false} NewRowsPositive(lines: seq<Line>, p: ProductId)
    requires Inventory.Positive(lines) && p in Inventory.NewRows(lines)
    ensures Inventory.NewRows(lines)[p].quantity > 0
  {
    if p != lines[|lines| - 1].productId { NewRowsPositive(lines[..|lines| - 1], p); }
  }

  lemma {:induction false} NewRowsStocked(stock: Inventory.Stock, lines: seq<Line>, p: ProductId)
    requires Inventory.Refusal(stock, lines) == None && Inventory.Insertable(map[], lines)
    requires p in Inventory.NewRows(lines)
    ensures p in stock && Inventory.NewRows(lines)[p].quantity > 0
  {
    Inventory.NewRowsKeys(lines, p);
    var i :| 0 <= i < |lines| && lines[i].productId == p;
    assert !Inventory.Short(stock, lines, i);
    NewRowsPositive(lines, p);
  }

  lemma ProcessStocked(s: State, m: Message, now: int)
    requires Inventory.NonNegative(s.inv.stock) && LedgerStocked(s.inv.ledger, s.inv.stock)
    requires m.eventId.CreatedId? && m.body.OrderCreated?
    requires m.eventId in s.inv.processed || m.body.orderId !in s.inv.ledger
    ensures var inv' := HandleCommand(Bare, s.inv, m, now).0;
            && Inventory.NonNegative(inv'.stock) && inv'.stock.Keys == s.inv.stock.Keys
            && LedgerStocked(inv'.ledger, inv'.stock)
  {
    var lines := Lines(m.body.items);
    var inv' := HandleCommand(Bare, s.inv, m, now).0;
    Inventory.DebitStaysNonNegative(s.inv.stock, lines, Inventory.Taken(s.inv.stock, lines));
    if m.eventId !in s.inv.processed && inv' != s.inv {
      forall o, p | o in inv'.ledger && p in inv'.ledger[o] ensures p in inv'.stock && inv'.ledger[o][p].quantity > 0 {
        if o == m.body.orderId { NewRowsStocked(s.inv.stock, lines, p); }
      }
    }
  }

  lemma ReleaseStocked(inv: Inventory.Db, o: OrderId, now: int)
    requires Inventory.NonNegative(inv.stock) && LedgerStocked(inv.ledger, inv.stock)
    ensures var inv' := Inventory.Release(inv, o, now).0;
            && Inventory.NonNegative(inv'.stock) && inv'.stock.Keys == inv.stock.Keys
            && LedgerStocked(inv'.ledger, inv'.stock)
  {
    forall p ensures Inventory.Held(Inventory.RowsOf(inv.ledger, o), p) >= 0 {
      if o in inv.ledger && p in inv.ledger[o] { assert inv.ledger[o][p].quantity > 0; }
    }
  }

  lemma CommandStepKeepsStock(w: Wiring, s: State, a: CommandAction)
    requires StockInv(s) && OrderInv(s, a.m.eventId.orderId) && GenuineCommands(s.od, s.relay, s.commands)
    ensures StockInv(CommandStep(w, s, a))
  {
    var t := CommandStep(w, s, a);
    CommandFrame(w, s, a);
    if a.TakeCommand? && a.m in s.commands.messages {
      assert Moving(s.relay, s.commands, a.m) && Queued(s.commands, a.m);
      forall p ensures Balanced(t, p) { TakeCommandBalanced(w, s, a.m, a.now, p); }
      if a.m.eventId.CreatedId? { ProcessStocked(s, a.m, a.now); }
      else { ReleaseStocked(s.inv, a.m.eventId.orderId, a.now); }
    } else {
      forall p ensures Balanced(t, p) { assert Balanced(s, p); SharesKept(s, t, p); }
    }
  }

  lemma NewcomerHasNoShare(s: State, t: State, o: OrderId, p: ProductId)
    requires OrderInv(s, o) && o !in s.od.orders
    requires t.inv == s.inv && t.history == s.history && t.od.orders.Keys == s.od.orders.Keys + {o}
    requires Balanced(s, p)
    ensures Balanced(t, p)
  {
    assert Share(t, o, p) == 0;
    MapSumUpdate(Shares(s, p), o, 0);
    assert Shares(t, p) == Shares(s, p)[o := 0];
  }

  /** Placing an order adds nobody's share; progressing or cancelling one changes none. */
  lemma OrderStepBalanced(s: State, a: OrderAction, p: ProductId)
    requires Balanced(s, p) && OrderInv(s, a.o)
    ensures Balanced(OrderStep(s, a), p)
  {
    var t := OrderStep(s, a);
    OrderFrame(s, a);
    if t.od.orders.Keys == s.od.orders.Keys {
      SharesKept(s, t, p);
    } else {
      assert t.od.orders.Keys == s.od.orders.Keys + {a.o};
      NewcomerHasNoShare(s, t, a.o, p);
    }
  }

  lemma AdjustKeepsStock(s: State, p: ProductId, q: int)
    requires StockInv(s)
    ensures StockInv(AdjustStep(s, p, q))
  {
    var t := AdjustStep(s, p, q);
    forall x ensures Balanced(t, x) {
      assert Balanced(s, x);
      assert Shares(t, x) == Shares(s, x);
    }
  }

  lemma PublishStock(s: State, a: PublishAction)
    ensures PublishStep(s, a).inv.stock == s.inv.stock && PublishStep(s, a).inv.ledger == s.inv.ledger
  {
    PublishFrame(s, a);
  }

  lemma OutcomeOrders(s: State, a: OutcomeAction)
    ensures OutcomeStep(s, a).od.orders.Keys == s.od.orders.Keys
  {
    OutcomeFrame(s, a);
  }

  lemma OtherStepsKeepStock(w: Wiring, s: State, a: Action)
    requires StockInv(s) && (a.OnRelay? || a.OnPublish? || a.OnOutcome?)
    ensures StockInv(Apply(w, s, a))
  {
    var t := Apply(w, s, a);
    if a.OnRelay? { RelayFrame(s, a.relay); }
    if a.OnPublish? { PublishFrame(s, a.publish); PublishStock(s, a.publish); }
    if a.OnOutcome? { OutcomeFrame(s, a.outcome); OutcomeOrders(s, a.outcome); }
    forall p ensures Balanced(t, p) { assert Balanced(s, p); SharesKept(s, t, p); }
  }

  lemma StepKeepsStock(w: Wiring, s: State, a: Action)
    requires Inv(s) && StockInv(s)
    ensures StockInv(Apply(w, s, a))
  {
    match a
    case OnOrder(x) =>
      assert OrderInv(s, x.o);
      OrderFrame(s, x);
      forall p ensures Balanced(OrderStep(s, x), p) { assert Balanced(s, p); OrderStepBalanced(s, x, p); }
    case OnCommand(x) => assert OrderInv(s, x.m.eventId.orderId); CommandStepKeepsStock(w, s, x);
    case Adjust(p, q) => AdjustKeepsStock(s, p, q);
    case _ => OtherStepsKeepStock(w, s, a);
  }

  lemma {:induction false} RunKeepsStock(w: Wiring, stock: Inventory.Stock, run: seq<Action>)
    requires Inventory.NonNegative(stock)
    ensures StockInv(Exec(w, Init(stock), run))
  {
    if run == [] {
      forall p ensures Balanced(Init(stock), p) { assert Shares(Init(stock), p) == map[]; }
    } else {
      RunKeepsStock(w, stock, run[..|run| - 1]);
      RunKeepsInv(w, stock, run[..|run| - 1]);
      StepKeepsStock(w, Exec(w, Init(stock), run[..|run| - 1]), run[|run| - 1]);
    }
  }

  /**
   * The conservation law over every run: stock on hand, plus what orders hold RESERVED, plus the committed
   * prefixes of rejected orders, is what was ever supplied; and stock is never negative.
   */
  lemma StockIsConserved(w: Wiring, stock: Inventory.Stock, run: seq<Action>, p: ProductId)
    requires Inventory.NonNegative(stock)
    ensures var s := Exec(w, Init(stock), run);
            && Inventory.OnHand(s.inv.stock, p) >= 0
            && Inventory.OnHand(s.inv.stock, p) + MapSum(Shares(s, p)) == ValueOr(s.history.supply, p)
  {
    RunKeepsStock(w, stock, run);
    assert Balanced(Exec(w, Init(stock), run), p);
  }

  /**
   * What one order keeps out of stock, read off its status: its lines while confirmed, its leaked prefix once
   * rejected.
   */
  lemma ShareByStatus(w: Wiring, stock: Inventory.Stock, run: seq<Action>, o: OrderId, p: ProductId)
    requires o in Exec(w, Init(stock), run).od.orders
    ensures var s := Exec(w, Init(stock), run);
            var row := s.od.orders[o];
            && (row.status == Confirmed ==> Share(s, o, p) == Inventory.Qty(Lines(row.items), p))
            && (row.status == Cancelled ==> Share(s, o, p) == 0)
            && (row.status == Rejected ==>
                  o in s.history.leaks && Share(s, o, p) == Inventory.Qty(s.history.leaks[o], p) &&
                  (s.history.leaks[o] < Lines(row.items) || s.history.leaks[o] == []))
  {
    var s := Exec(w, Init(stock), run);
    RunKeepsInv(w, stock, run);
    assert OrderInv(s, o);
    if StatusIs(s.od, o, Confirmed) {
      var rows := Inventory.NewRows(Lines(s.od.orders[o].items));
      Inventory.NewRowsHold(map[], Lines(s.od.orders[o].items), p);
      assert map[] + rows == rows;
    }
  }
}
