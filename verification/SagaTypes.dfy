/** The identifiers, rows and messages that the order and inventory services exchange. */
module SagaTypes {
  import opened Common

  type OrderId = string
  type ProductId = string
  type UserId = string

  datatype Line = Line(productId: ProductId, quantity: int)

  datatype Status = Pending | Confirmed | Rejected | CancelPending | Cancelled

  datatype Fulfilment = NotStarted | Packing | Dispatched | OutForDelivery | Delivered
  {
    function Rank(): nat {
      match this
      case NotStarted => 0
      case Packing => 1
      case Dispatched => 2
      case OutForDelivery => 3
      case Delivered => 4
    }

    function Name(): string {
      match this
      case NotStarted => "NOT_STARTED"
      case Packing => "PACKING"
      case Dispatched => "DISPATCHED"
      case OutForDelivery => "OUT_FOR_DELIVERY"
      case Delivered => "DELIVERED"
    }
  }

  /** Key of a row in the order outbox, and the event id its message carries. */
  datatype EventId =
    | CreatedId(orderId: OrderId)
    | CancelId(orderId: OrderId)
    | FulfilmentId(orderId: OrderId, target: Fulfilment)
  {
    function Text(): string {
      match this
      case CreatedId(o) => "order-created#" + o
      case CancelId(o) => "order-cancel-requested#" + o
      case FulfilmentId(o, f) => "fulfilment-status-changed#" + o + "#" + f.Name()
    }
  }

  /** Key of a row in the inventory outbox. */
  datatype OutcomeId = DecisionId(cause: EventId) | ReleasedId(orderId: OrderId)
  {
    function Text(): string {
      match this
      case DecisionId(e) => "inventory-outcome#" + e.Text()
      case ReleasedId(o) => "inventory-cancelled#" + o
    }
  }

  /** What an order outbox row, and later a queue message, says. */
  datatype Payload =
    | OrderCreated(orderId: OrderId, userId: UserId, email: Option<string>, items: seq<Line>)
    | CancelRequested(orderId: OrderId, userId: UserId, email: Option<string>, items: seq<Line>)
    | FulfilmentChanged(orderId: OrderId, userId: UserId, email: Option<string>, target: Fulfilment)

  datatype Message = Message(eventId: EventId, body: Payload)

  /** The event type inventory announces. */
  datatype Verdict = OrderConfirmed | OrderRejected | OrderCancelled

  datatype Reason = NoItems | Insufficient(productId: ProductId) | Unknown(productId: ProductId)

  datatype Outcome = Outcome(id: OutcomeId, verdict: Verdict, orderId: OrderId, reason: Option<Reason>)

  lemma PrefixCancels(p: string, a: string, b: string)
    ensures p + a == p + b ==> a == b
  {
    assert a == (p + a)[|p|..] && b == (p + b)[|p|..];
  }

  lemma PrefixesClash(p: string, q: string, a: string, b: string, i: nat)
    requires i < |p| && i < |q| && p[i] != q[i]
    ensures p + a != q + b
  {
    assert (p + a)[i] != (q + b)[i];
  }

  lemma NamesDiffer(f: Fulfilment, g: Fulfilment)
    ensures f.Name() == g.Name() ==> f == g
    ensures '#' !in f.Name()
  {
    var m, n := f.Name(), g.Name();
    assert m == n ==> m[0] == n[0] && m[1] == n[1] && m[2] == n[2];
  }

  lemma MarkedTextInjective(head: string, o: string, m: string, p: string, n: string)
    requires '#' !in m && '#' !in n
    ensures head + o + "#" + m == head + p + "#" + n ==> o == p && m == n
  {
    assert head + o + "#" + m == head + (o + "#" + m);
    assert head + p + "#" + n == head + (p + "#" + n);
    PrefixCancels(head, o + "#" + m, p + "#" + n);
    LastMarkSplits('#', o, p, m, n);
  }

  lemma FulfilmentTextInjective(o: OrderId, f: Fulfilment, p: OrderId, g: Fulfilment)
    ensures FulfilmentId(o, f).Text() == FulfilmentId(p, g).Text() ==> o == p && f == g
  {
    NamesDiffer(f, g);
    NamesDiffer(g, f);
    MarkedTextInjective("fulfilment-status-changed#", o, f.Name(), p, g.Name());
  }

  /** Two outbox rows never share a key: the printed event id names the event. */
  lemma EventTextInjective(x: EventId, y: EventId)
    ensures x.Text() == y.Text() ==> x == y
  {
    var c, k := "order-created#", "order-cancel-requested#";
    match (x, y)
    case (CreatedId(o), CreatedId(p)) => PrefixCancels(c, o, p);
    case (CancelId(o), CancelId(p)) => PrefixCancels(k, o, p);
    case (FulfilmentId(o, f), FulfilmentId(p, g)) => FulfilmentTextInjective(o, f, p, g);
    case (CreatedId(o), CancelId(p)) => PrefixesClash(c, k, o, p, 7);
    case (CancelId(o), CreatedId(p)) => PrefixesClash(k, c, o, p, 7);
    case (FulfilmentId(_, _), _) => assert x.Text()[0] != y.Text()[0];
    case (_, FulfilmentId(_, _)) => assert x.Text()[0] != y.Text()[0];
  }

  /** The same for the inventory outbox. */
  lemma OutcomeTextInjective(x: OutcomeId, y: OutcomeId)
    ensures x.Text() == y.Text() ==> x == y
  {
    var d, r := "inventory-outcome#", "inventory-cancelled#";
    match (x, y)
    case (DecisionId(e), DecisionId(f)) =>
      PrefixCancels(d, e.Text(), f.Text());
      EventTextInjective(e, f);
    case (ReleasedId(o), ReleasedId(p)) => PrefixCancels(r, o, p);
    case (DecisionId(e), ReleasedId(p)) => PrefixesClash(d, r, e.Text(), p, 10);
    case (ReleasedId(o), DecisionId(f)) => PrefixesClash(r, d, o, f.Text(), 10);
  }
}
