/**
 * Exactly-once effect under at-least-once delivery. Every run, with all its duplicates, redeliveries and
 * crashes, leaves orders, stock and ledger as a list of blind effects does, in which no effect occurs twice.
 */
module SagaExactlyOnce {
  import opened Common
  import opened SagaTypes
  import opened Messaging
  import opened Saga
  import opened SagaInvariant
  import opened SagaRuns
  import Inventory
  import Orders

  datatype Business = Business(
    orders: map<OrderId, Orders.Order>, stock: Inventory.Stock, ledger: map<OrderId, Inventory.Rows>)

  function Biz(s: State): Business {
    Business(s.od.orders, s.inv.stock, s.inv.ledger)
  }

  /** An effect carried out blindly: no receipt is consulted and no condition is checked. */
  datatype Effect =
    | Create(o: OrderId, row: Orders.Order)
    | Reserve(o: OrderId, lines: seq<Line>)
    | PutBack(o: OrderId)
    | Settle(o: OrderId, verdict: Verdict, reason: Option<Reason>, now: int)
    | Ship(o: OrderId, target: Fulfilment, now: int)
    | AskCancel(o: OrderId, now: int)
    | SetStock(p: ProductId, quantity: int)

  function Blind(b: Business, e: Effect): Business {
    match e
    case Create(o, row) => b.(orders := b.orders[o := row])
    case Reserve(o, lines) =>
      b.(stock := Inventory.Debit(b.stock, lines[..Inventory.Taken(b.stock, lines)]),
         ledger := if Inventory.Refusal(b.stock, lines) == None
                   then b.ledger[o := Inventory.RowsOf(b.ledger, o) + Inventory.NewRows(lines)] else b.ledger)
    case PutBack(o) =>
      var rows := Inventory.RowsOf(b.ledger, o);
      b.(stock := map p | p in b.stock :: b.stock[p] + (if p in rows then rows[p].quantity else 0),
         ledger := b.ledger[o := Inventory.AllReleased(rows)])
    case Settle(o, v, reason, now) =>
      if o !in b.orders then b
      else b.(orders := b.orders[o := b.orders[o].(
                status := TargetStatus(v), updatedAt := now,
                reason := if reason == None then b.orders[o].reason else reason)])
    case Ship(o, target, now) =>
      if o !in b.orders then b else b.(orders := b.orders[o := b.orders[o].(fulfilment := target, updatedAt := now)])
    case AskCancel(o, now) =>
      if o !in b.orders then b else b.(orders := b.orders[o := b.orders[o].(status := CancelPending, updatedAt := now)])
    case SetStock(p, q) => b.(stock := b.stock[p := q])
  }

  function Replay(b: Business, es: seq<Effect>): Business {
    if es == [] then b else Blind(Replay(b, es[..|es| - 1]), es[|es| - 1])
  }

  /** What must not happen twice to an order. */
  datatype Key =
    | CreateKey(o: OrderId) | ReserveKey(o: OrderId) | PutBackKey(o: OrderId)
    | DecisionKey(o: OrderId) | CancelledKey(o: OrderId)
    | ShipKey(o: OrderId, target: Fulfilment) | AskKey(o: OrderId)

  function KeyOf(e: Effect): Option<Key> {
    match e
    case Create(o, _) => Some(CreateKey(o))
    case Reserve(o, _) => Some(ReserveKey(o))
    case PutBack(o) => Some(PutBackKey(o))
    case Settle(o, v, _, _) => Some(if v == OrderCancelled then CancelledKey(o) else DecisionKey(o))
    case Ship(o, target, _) => Some(ShipKey(o, target))
    case AskCancel(o, _) => Some(AskKey(o))
    case SetStock(_, _) => None
  }

  /** The effect of a step, if it has one; a repeat of something that already happened has none. */
  function EffectOf(w: Wiring, s: State, a: Action): Option<Effect> {
    match a
    case OnOrder(Place(o, user, email, items, now)) =>
      if Orders.PutWithCommand(s.od, o, user, email, items, now) == None then None
      else Some(Create(o, Orders.Order(user, Orders.Truthy(email), items, Pending, NotStarted, None, now)))
    case OnOrder(Advance(o, read, target, now)) =>
      if (o, read) in s.seen && Orders.Predecessor(target) != None
         && Orders.WriteFulfilment(s.od, o, read, Orders.Predecessor(target).value, target, now).1.Done?
      then Some(Ship(o, target, now)) else None
    case OnOrder(Cancel(o, read, user, email, now)) =>
      if (o, read) in s.seen && Orders.WriteCancellation(s.od, o, read, user, email, now).1.Done?
      then Some(AskCancel(o, now)) else None
    case OnCommand(TakeCommand(m, now)) =>
      if m !in s.commands.messages then None
      else if m.body.OrderCreated? then
        if m.eventId in s.inv.processed || !HandleCommand(w, s.inv, m, now).1 then None
        else Some(Reserve(m.body.orderId, Lines(m.body.items)))
      else if m.body.CancelRequested? && w == Bare && ReleasedId(m.body.orderId) !in s.inv.outbox
      then Some(PutBack(m.body.orderId)) else None
    case OnOutcome(TakeOutcome(e, now)) =>
      if e in s.outcomes.messages && e.orderId in s.od.orders
         && s.od.orders[e.orderId].status == SourceStatus(e.verdict)
      then Some(Settle(e.orderId, e.verdict, e.reason, now)) else None
    case Adjust(p, q) => if q < 0 then None else Some(SetStock(p, q))
    case _ => None
  }

  ghost predicate Happened(s: State, k: Key) {
    match k
    case CreateKey(o) => o in s.od.orders
    case ReserveKey(o) => CreatedId(o) in s.inv.processed
    case PutBackKey(o) => ReleasedId(o) in s.inv.outbox
    case DecisionKey(o) => StatusPassed(s.od, o, Pending)
    case CancelledKey(o) => StatusIs(s.od, o, Cancelled)
    case ShipKey(o, f) => FulfilmentId(o, f) in s.od.outbox
    case AskKey(o) => CancelId(o) in s.od.outbox
  }

  /** `t` is `s` after `e`, and `e` is the one thing that happened. */
  ghost predicate OneEffect(s: State, t: State, e: Option<Effect>, k: Key) {
    && Biz(t) == (if e == None then Biz(s) else Blind(Biz(s), e.value))
    && (Happened(t, k) <==> Happened(s, k) || (e != None && KeyOf(e.value) == Some(k)))
    && (e != None && KeyOf(e.value) == Some(k) ==> !Happened(s, k))
  }

  lemma PlaceEffect(w: Wiring, s: State, a: OrderAction, k: Key)
    requires Mirrored(s.od, a.o) && a.Place?
    ensures OneEffect(s, OrderStep(s, a), EffectOf(w, s, OnOrder(a)), k)
  {
  }

  lemma AdvanceEffect(w: Wiring, s: State, a: OrderAction, k: Key)
    requires Mirrored(s.od, a.o) && a.Advance?
    ensures OneEffect(s, OrderStep(s, a), EffectOf(w, s, OnOrder(a)), k)
  {
  }

  lemma AskEffect(w: Wiring, s: State, a: OrderAction, k: Key)
    requires Mirrored(s.od, a.o) && a.Cancel?
    ensures OneEffect(s, OrderStep(s, a), EffectOf(w, s, OnOrder(a)), k)
  {
  }

  lemma OrderEffect(w: Wiring, s: State, a: OrderAction, k: Key)
    requires OrderInv(s, a.o)
    ensures OneEffect(s, OrderStep(s, a), EffectOf(w, s, OnOrder(a)), k)
  {
    match a
    case Place(_, _, _, _, _) => PlaceEffect(w, s, a, k);
    case Advance(_, _, _, _) => AdvanceEffect(w, s, a, k);
    case Cancel(_, _, _, _, _) => AskEffect(w, s, a, k);
    case Read(_) =>
  }

  lemma CreatedEffect(w: Wiring, s: State, m: Message, now: int, k: Key)
    requires OrderInv(s, m.eventId.orderId) && GenuineMessage(s.od, m) && m.eventId.CreatedId?
    requires m in s.commands.messages
    ensures OneEffect(s, TakeCommandStep(w, s, m, now), EffectOf(w, s, OnCommand(TakeCommand(m, now))), k)
  {
  }

  lemma {:induction false} AllNewRowsReserved(lines: seq<Line>, p: ProductId)
    requires p in Inventory.NewRows(lines)
    ensures Inventory.NewRows(lines)[p].state == Inventory.Reserved
  {
    if p != lines[|lines| - 1].productId { AllNewRowsReserved(lines[..|lines| - 1], p); }
  }

  lemma ReleaseIsBlind(s: State, o: OrderId, now: int)
    requires OrderInv(s, o) && CancelId(o) in s.od.outbox
    ensures var inv' := Inventory.Release(s.inv, o, now).0;
            && inv'.processed == s.inv.processed
            && (ReleasedId(o) in s.inv.outbox ==> inv' == s.inv)
            && (ReleasedId(o) !in s.inv.outbox ==>
                  Business(s.od.orders, inv'.stock, inv'.ledger) == Blind(Biz(s), PutBack(o)) &&
                  inv'.outbox.Keys == s.inv.outbox.Keys + {ReleasedId(o)})
  {
    var lines := Lines(s.od.orders[o].items);
    NewRowsReserved(lines);
    if ReleasedId(o) !in s.inv.outbox {
      forall p | p in s.inv.ledger[o] ensures s.inv.ledger[o][p].state == Inventory.Reserved {
        AllNewRowsReserved(lines, p);
      }
    }
  }

  lemma CancelEffect(w: Wiring, s: State, m: Message, now: int, k: Key)
    requires OrderInv(s, m.eventId.orderId) && GenuineMessage(s.od, m) && m.eventId.CancelId?
    requires m in s.commands.messages
    ensures OneEffect(s, TakeCommandStep(w, s, m, now), EffectOf(w, s, OnCommand(TakeCommand(m, now))), k)
  {
    ReleaseIsBlind(s, m.eventId.orderId, now);
  }

  lemma CommandEffect(w: Wiring, s: State, a: CommandAction, k: Key)
    requires OrderInv(s, a.m.eventId.orderId) && GenuineCommands(s.od, s.relay, s.commands)
    ensures OneEffect(s, CommandStep(w, s, a), EffectOf(w, s, OnCommand(a)), k)
  {
    CommandFrame(w, s, a);
    if a.TakeCommand? && a.m in s.commands.messages {
      assert Moving(s.relay, s.commands, a.m) && Queued(s.commands, a.m);
      if a.m.eventId.CreatedId? { CreatedEffect(w, s, a.m, a.now, k); } else { CancelEffect(w, s, a.m, a.now, k); }
    }
  }

  lemma DecisionEffect(w: Wiring, s: State, e: Outcome, now: int, k: Key)
    requires e in s.outcomes.messages && e.verdict != OrderCancelled
    ensures OneEffect(s, OutcomeStep(s, TakeOutcome(e, now)), EffectOf(w, s, OnOutcome(TakeOutcome(e, now))), k)
  {
    OutcomeFrame(s, TakeOutcome(e, now));
  }

  lemma CancelledEffect(w: Wiring, s: State, e: Outcome, now: int, k: Key)
    requires e in s.outcomes.messages && e.verdict == OrderCancelled
    ensures OneEffect(s, OutcomeStep(s, TakeOutcome(e, now)), EffectOf(w, s, OnOutcome(TakeOutcome(e, now))), k)
  {
    OutcomeFrame(s, TakeOutcome(e, now));
  }

  lemma OutcomeEffect(w: Wiring, s: State, a: OutcomeAction, k: Key)
    requires OrderInv(s, a.e.orderId) && GenuineOutcomes(s.inv, s.publisher, s.outcomes)
    ensures OneEffect(s, OutcomeStep(s, a), EffectOf(w, s, OnOutcome(a)), k)
  {
    if a.TakeOutcome? && a.e in s.outcomes.messages {
      assert Moving(s.publisher, s.outcomes, a.e);
      if a.e.verdict == OrderCancelled {
        CancelledEffect(w, s, a.e, a.now, k);
      } else {
        DecisionEffect(w, s, a.e, a.now, k);
      }
    }
  }

  lemma RelayNoEffect(s: State, a: RelayAction, k: Key)
    ensures OneEffect(s, RelayStep(s, a), None, k)
  {
    RelayFrame(s, a);
  }

  lemma PublishNoEffect(s: State, a: PublishAction, k: Key)
    ensures OneEffect(s, PublishStep(s, a), None, k)
  {
    PublishFrame(s, a);
  }

  lemma StepEffect(w: Wiring, s: State, a: Action, k: Key)
    requires Inv(s)
    ensures OneEffect(s, Apply(w, s, a), EffectOf(w, s, a), k)
  {
    match a
    case OnOrder(x) => assert OrderInv(s, x.o); OrderEffect(w, s, x, k);
    case OnRelay(x) => RelayNoEffect(s, x, k);
    case OnCommand(x) => assert OrderInv(s, x.m.eventId.orderId); CommandEffect(w, s, x, k);
    case OnPublish(x) => PublishNoEffect(s, x, k);
    case OnOutcome(x) => assert OrderInv(s, x.e.orderId); OutcomeEffect(w, s, x, k);
    case Adjust(p, q) =>
  }

  /** The effects of a run, with everything that only repeats removed. */
  function Effects(w: Wiring, s: State, run: seq<Action>): seq<Effect> {
    if run == [] then []
    else
      var front := run[..|run| - 1];
      var e := EffectOf(w, Exec(w, s, front), run[|run| - 1]);
      Effects(w, s, front) + (if e == None then [] else [e.value])
  }

  ghost predicate Occurs(es: seq<Effect>, k: Key) {
    exists i :: 0 <= i < |es| && KeyOf(es[i]) == Some(k)
  }

  ghost predicate NoRepeats(es: seq<Effect>) {
    forall i, j :: 0 <= i < j < |es| && KeyOf(es[i]) != None ==> KeyOf(es[i]) != KeyOf(es[j])
  }

  /** Exactly the things that happened are in the list of effects. */
  lemma {:induction false} EffectsAreWhatHappened(w: Wiring, stock: Inventory.Stock, run: seq<Action>, k: Key)
    ensures Occurs(Effects(w, Init(stock), run), k) <==> Happened(Exec(w, Init(stock), run), k)
  {
    if run == [] {
    } else {
      var front, a := run[..|run| - 1], run[|run| - 1];
      var es, s := Effects(w, Init(stock), front), Exec(w, Init(stock), front);
      var e := EffectOf(w, s, a);
      EffectsAreWhatHappened(w, stock, front, k);
      RunKeepsInv(w, stock, front);
      StepEffect(w, s, a, k);
      if e != None {
        assert (es + [e.value])[|es|] == e.value;
        assert forall i :: 0 <= i < |es| ==> (es + [e.value])[i] == es[i];
      } else {
        assert es + [] == es;
      }
    }
  }

  /** The main result: the run does what its once-only effects do. */
  lemma {:induction false} RunIsOnceOnly(w: Wiring, stock: Inventory.Stock, run: seq<Action>)
    ensures Replay(Biz(Init(stock)), Effects(w, Init(stock), run)) == Biz(Exec(w, Init(stock), run))
    ensures NoRepeats(Effects(w, Init(stock), run))
  {
    if run == [] {
    } else {
      var front, a := run[..|run| - 1], run[|run| - 1];
      var es, s := Effects(w, Init(stock), front), Exec(w, Init(stock), front);
      var e := EffectOf(w, s, a);
      RunIsOnceOnly(w, stock, front);
      RunKeepsInv(w, stock, front);
      StepEffect(w, s, a, CreateKey(""));
      if e != None {
        assert (es + [e.value])[..|es|] == es;
        if KeyOf(e.value) != None {
          EffectsAreWhatHappened(w, stock, front, KeyOf(e.value).value);
          StepEffect(w, s, a, KeyOf(e.value).value);
        }
      } else {
        assert es + [] == es;
      }
    }
  }
}
