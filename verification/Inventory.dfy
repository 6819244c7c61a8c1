/** The inventory database and the transactions that run over it. */
module Inventory {
  import opened Common
  import opened SagaTypes

  type Stock = map<ProductId, int>

  datatype RowState = Reserved | Released

  datatype LedgerRow = LedgerRow(quantity: int, state: RowState)

  /** The ledger rows of one order, by product. */
  type Rows = map<ProductId, LedgerRow>

  datatype OutcomeRow = OutcomeRow(
    verdict: Verdict, orderId: OrderId, reason: Option<Reason>, published: bool, createdAt: int)

  datatype Db = Db(
    stock: Stock,
    processed: set<EventId>,
    ledger: map<OrderId, Rows>,
    outbox: map<OutcomeId, OutcomeRow>)

  /** `verdict == None` stands for the event type "duplicate" that is reported when the outcome row is missing. */
  datatype ProcessingOutcome = ProcessingOutcome(verdict: Option<Verdict>, duplicate: bool, reason: Option<Reason>)

  /** A transaction either returns, or raises and leaves the database as it was. */
  datatype Attempt = Returned(outcome: ProcessingOutcome) | Raised

  // ---- reservation ----------------------------------------------------------

  /** How much of product `p` the lines ask for in total. */
  function Qty(lines: seq<Line>, p: ProductId): int {
    if lines == [] then 0 else
      var last := lines[|lines| - 1];
      Qty(lines[..|lines| - 1], p) + (if last.productId == p then last.quantity else 0)
  }

  function Debit(stock: Stock, lines: seq<Line>): Stock {
    map p | p in stock :: stock[p] - Qty(lines, p)
  }

  /** Line `i` cannot be taken once the lines before it have been. */
  predicate Short(stock: Stock, lines: seq<Line>, i: nat)
    requires i < |lines|
  {
    var p := lines[i].productId;
    p !in stock || stock[p] - Qty(lines[..i], p) < lines[i].quantity
  }

  function FirstShort(stock: Stock, lines: seq<Line>, i: nat): (k: nat)
    requires i <= |lines|
    ensures i <= k <= |lines|
    ensures forall j :: i <= j < k ==> !Short(stock, lines, j)
    ensures k < |lines| ==> Short(stock, lines, k)
    decreases |lines| - i
  {
    if i == |lines| || Short(stock, lines, i) then i else FirstShort(stock, lines, i + 1)
  }

  /** How many leading lines go through. */
  function Taken(stock: Stock, lines: seq<Line>): (k: nat)
    ensures k <= |lines|
  {
    FirstShort(stock, lines, 0)
  }

  function Refusal(stock: Stock, lines: seq<Line>): Option<Reason> {
    if lines == [] then Some(NoItems) else
      var k := Taken(stock, lines);
      if k == |lines| then None
      else if lines[k].productId in stock then Some(Insufficient(lines[k].productId))
      else Some(Unknown(lines[k].productId))
  }

  ghost predicate Positive(lines: seq<Line>) {
    forall i :: 0 <= i < |lines| ==> lines[i].quantity > 0
  }

  ghost predicate NonNegative(stock: Stock) {
    forall p :: p in stock ==> stock[p] >= 0
  }

  /** The last line adds its own quantity, to its own product. */
  lemma QtySplits(lines: seq<Line>, p: ProductId)
    requires lines != []
    ensures var last := lines[|lines| - 1];
            Qty(lines, p) == Qty(lines[..|lines| - 1], p) + (if last.productId == p then last.quantity else 0)
  {
  }

  lemma {:induction false} QtyOfPrefix(lines: seq<Line>, k: nat, p: ProductId)
    requires Positive(lines) && k <= |lines|
    ensures 0 <= Qty(lines[..k], p) <= Qty(lines, p)
    ensures (exists i :: k <= i < |lines| && lines[i].productId == p) ==> Qty(lines[..k], p) < Qty(lines, p)
  {
    if lines == [] {
      assert lines[..k] == [];
    } else {
      var n := |lines| - 1;
      var front := lines[..n];
      QtySplits(lines, p);
      if k == |lines| {
        assert lines[..k] == lines;
        QtyOfPrefix(front, n, p);
        assert front[..n] == front;
      } else {
        QtyOfPrefix(front, k, p);
        assert front[..k] == lines[..k];
        assert forall i :: 0 <= i < n ==> front[i] == lines[i];
      }
    }
  }

  predicate StockedAt(stock: Stock, lines: seq<Line>, i: nat)
    requires i < |lines|
  {
    var p := lines[i].productId;
    p in stock && Qty(lines, p) <= stock[p]
  }

  predicate Stocked(stock: Stock, lines: seq<Line>) {
    forall i :: 0 <= i < |lines| ==> StockedAt(stock, lines, i)
  }

  lemma ShortMeansNotStocked(stock: Stock, lines: seq<Line>, k: nat)
    requires Positive(lines) && k < |lines| && Short(stock, lines, k)
    ensures !StockedAt(stock, lines, k)
  {
    assert lines[..k + 1][..k] == lines[..k];
    QtyOfPrefix(lines, k + 1, lines[k].productId);
  }

  lemma {:induction false} LastUseFits(stock: Stock, lines: seq<Line>, k: nat, p: ProductId, i: nat)
    requires i < k <= |lines| && p in stock && lines[i].productId == p
    requires forall j :: 0 <= j < k ==> !Short(stock, lines, j)
    ensures Qty(lines[..k], p) <= stock[p]
  {
    assert lines[..k][..k - 1] == lines[..k - 1];
    assert !Short(stock, lines, k - 1);
    if lines[k - 1].productId != p {
      LastUseFits(stock, lines, k - 1, p, i);
    }
  }

  /**
   * Acceptance does not depend on the order of the lines: a non-empty order goes through
   * exactly when every product it names is stocked in the total quantity asked for.
   */
  lemma ReservableIff(stock: Stock, lines: seq<Line>)
    requires Positive(lines)
    ensures Refusal(stock, lines) == None <==> lines != [] && Stocked(stock, lines)
  {
    if lines != [] {
      if Taken(stock, lines) < |lines| {
        ShortMeansNotStocked(stock, lines, Taken(stock, lines));
      } else {
        forall i | 0 <= i < |lines| ensures StockedAt(stock, lines, i) {
          assert !Short(stock, lines, i);
          LastUseFits(stock, lines, |lines|, lines[i].productId, i);
          assert lines[..|lines|] == lines;
        }
      }
    }
  }

  /** The stock covers line `i` on top of the lines before it. */
  predicate Fits(stock: Stock, lines: seq<Line>, i: nat)
    requires i < |lines|
  {
    lines[i].productId in stock && Qty(lines[..i + 1], lines[i].productId) <= stock[lines[i].productId]
  }

  /** What an answer must say: no items, or that all lines fit, or the first line that does not and why. */
  ghost predicate Explains(stock: Stock, lines: seq<Line>, answer: Option<Reason>) {
    if lines == [] then answer == Some(NoItems)
    else if answer == None then forall i :: 0 <= i < |lines| ==> Fits(stock, lines, i)
    else exists k :: 0 <= k < |lines| && !Fits(stock, lines, k) && (forall i :: 0 <= i < k ==> Fits(stock, lines, i))
                     && answer.value == if lines[k].productId in stock then Insufficient(lines[k].productId)
                                        else Unknown(lines[k].productId)
  }

  lemma FitsIff(stock: Stock, lines: seq<Line>, i: nat)
    requires i < |lines|
    ensures Fits(stock, lines, i) <==> !Short(stock, lines, i)
  {
    assert lines[..i + 1][..i] == lines[..i];
  }

  /** A refusal names the first line that cannot be taken after the lines before it, and says why. */
  lemma RefusalNamesTheFirstShortLine(stock: Stock, lines: seq<Line>)
    ensures Explains(stock, lines, Refusal(stock, lines))
  {
    forall i | 0 <= i < |lines| ensures Fits(stock, lines, i) <==> !Short(stock, lines, i) {
      FitsIff(stock, lines, i);
    }
    if lines != [] && Taken(stock, lines) < |lines| {
      assert !Fits(stock, lines, Taken(stock, lines));
    }
  }

  /** The conditional decrement of one line, on the stock left by the lines before it. */
  lemma OneDecrement(stock: Stock, lines: seq<Line>, i: nat)
    requires i < |lines|
    ensures var left, p, q := Debit(stock, lines[..i]), lines[i].productId, lines[i].quantity;
            && (p in left <==> p in stock)
            && (Short(stock, lines, i) <==> !(p in left && left[p] >= q))
            && (p in left ==> left[p := left[p] - q] == Debit(stock, lines[..i + 1]))
  {
    assert lines[..i + 1][..i] == lines[..i];
  }

  /** There is only one such answer. */
  lemma ExplanationIsUnique(stock: Stock, lines: seq<Line>, a: Option<Reason>, b: Option<Reason>)
    requires Explains(stock, lines, a) && Explains(stock, lines, b)
    ensures a == b
  {
  }

  /** Taking the leading lines never drives any product negative. */
  lemma {:induction false} DebitStaysNonNegative(stock: Stock, lines: seq<Line>, k: nat)
    requires NonNegative(stock) && k <= Taken(stock, lines)
    ensures NonNegative(Debit(stock, lines[..k]))
  {
    if k == 0 {
    } else {
      DebitStaysNonNegative(stock, lines, k - 1);
      assert lines[..k][..k - 1] == lines[..k - 1];
      assert !Short(stock, lines, k - 1);
      forall p | p in stock ensures stock[p] - Qty(lines[..k], p) >= 0 {
        assert Debit(stock, lines[..k - 1])[p] >= 0;
      }
    }
  }

  // ---- the order command ----------------------------------------------------

  function RowsOf(ledger: map<OrderId, Rows>, o: OrderId): Rows {
    if o in ledger then ledger[o] else map[]
  }

  function NewRows(lines: seq<Line>): Rows {
    if lines == [] then map[] else
      var last := lines[|lines| - 1];
      NewRows(lines[..|lines| - 1])[last.productId := LedgerRow(last.quantity, Reserved)]
  }

  predicate Distinct(lines: seq<Line>) {
    forall i, j :: 0 <= i < j < |lines| ==> lines[i].productId != lines[j].productId
  }

  /** The inserts meet the ledger's primary key (order, product) and its check that quantities are positive. */
  predicate Insertable(rows: Rows, lines: seq<Line>) {
    && Distinct(lines)
    && forall i :: 0 <= i < |lines| ==> lines[i].quantity > 0 && lines[i].productId !in rows
  }

  function ProcessOrder(db: Db, e: EventId, o: OrderId, lines: seq<Line>, now: int): (Db, Attempt) {
    var id := DecisionId(e);
    if e in db.processed then
      // The reason is looked up at the top level of the stored envelope, which has no such field.
      (db, Returned(ProcessingOutcome(if id in db.outbox then Some(db.outbox[id].verdict) else None, true, None)))
    else
      var refusal := Refusal(db.stock, lines);
      var rows := RowsOf(db.ledger, o);
      if id in db.outbox || (refusal == None && !Insertable(rows, lines)) then (db, Raised)
      else
        var verdict := if refusal == None then OrderConfirmed else OrderRejected;
        (Db(
           Debit(db.stock, lines[..Taken(db.stock, lines)]),
           db.processed + {e},
           if refusal == None then db.ledger[o := rows + NewRows(lines)] else db.ledger,
           db.outbox[id := OutcomeRow(verdict, o, refusal, false, now)]),
         Returned(ProcessingOutcome(Some(verdict), false, refusal)))
  }

  /** The lines whose decrement stays committed although the order was rejected. */
  function Leaked(db: Db, e: EventId, o: OrderId, lines: seq<Line>, now: int): seq<Line> {
    if ProcessOrder(db, e, o, lines, now).1 != Raised && e !in db.processed && Refusal(db.stock, lines) != None
    then lines[..Taken(db.stock, lines)] else []
  }

  // ---- the cancel command ---------------------------------------------------

  predicate AnyReserved(rows: Rows) {
    exists p :: p in rows && rows[p].state == Reserved
  }

  function Held(rows: Rows, p: ProductId): int {
    if p in rows && rows[p].state == Reserved then rows[p].quantity else 0
  }

  function AllReleased(rows: Rows): Rows {
    map p | p in rows :: rows[p].(state := Released)
  }

  function Release(db: Db, o: OrderId, now: int): (Db, ProcessingOutcome) {
    var rows := RowsOf(db.ledger, o);
    if !AnyReserved(rows) then (db, ProcessingOutcome(Some(OrderCancelled), true, None))
    else
      var id := ReleasedId(o);
      var row := if id in db.outbox then db.outbox[id].(verdict := OrderCancelled, orderId := o, reason := None)
                 else OutcomeRow(OrderCancelled, o, None, false, now);
      (db.(stock := map p | p in db.stock :: db.stock[p] + Held(rows, p),
           ledger := db.ledger[o := AllReleased(rows)],
           outbox := db.outbox[id := row]),
       ProcessingOutcome(Some(OrderCancelled), false, None))
  }

  function MarkPublished(db: Db, id: OutcomeId): Db {
    if id in db.outbox && !db.outbox[id].published
    then db.(outbox := db.outbox[id := db.outbox[id].(published := true)]) else db
  }

  /** The oldest unpublished rows, each once, at most `limit` of them, oldest first; fewer only if there are no more. */
  ghost predicate OldestPending(outbox: map<OutcomeId, OutcomeRow>, limit: nat, ids: seq<OutcomeId>) {
    && |ids| <= limit
    && (forall i :: 0 <= i < |ids| ==> ids[i] in outbox && !outbox[ids[i]].published)
    && (forall i, j :: 0 <= i < j < |ids| ==> ids[i] != ids[j] && outbox[ids[i]].createdAt <= outbox[ids[j]].createdAt)
    && (forall x, i :: x in outbox && !outbox[x].published && x !in ids && 0 <= i < |ids| ==>
          outbox[ids[i]].createdAt <= outbox[x].createdAt)
    && (|ids| < limit ==> forall x :: x in outbox && !outbox[x].published ==> x in ids)
  }

  // ---- what the transactions keep -------------------------------------------

  ghost function OnHand(stock: Stock, p: ProductId): int {
    if p in stock then stock[p] else 0
  }

  lemma {:induction false} QtyZeroIfAbsent(lines: seq<Line>, p: ProductId)
    requires forall i :: 0 <= i < |lines| ==> lines[i].productId != p
    ensures Qty(lines, p) == 0
  {
    if lines == [] {
    } else {
      QtyZeroIfAbsent(lines[..|lines| - 1], p);
    }
  }

  lemma {:induction false} NewRowsKeys(lines: seq<Line>, p: ProductId)
    ensures p in NewRows(lines) <==> exists i :: 0 <= i < |lines| && lines[i].productId == p
  {
    if lines == [] {
    } else {
      var front := lines[..|lines| - 1];
      NewRowsKeys(front, p);
      if i :| 0 <= i < |front| && front[i].productId == p { assert lines[i].productId == p; }
      if i :| 0 <= i < |lines| && lines[i].productId == p { assert i < |front| ==> front[i].productId == p; }
    }
  }

  /** The ledger rows written for an order hold exactly the quantities of its lines. */
  lemma {:induction false} NewRowsHold(rows: Rows, lines: seq<Line>, p: ProductId)
    requires Insertable(rows, lines)
    ensures Held(rows + NewRows(lines), p) == Held(rows, p) + Qty(lines, p)
  {
    if lines == [] {
    } else {
      var front, last := lines[..|lines| - 1], lines[|lines| - 1];
      NewRowsHold(rows, front, p);
      if p == last.productId {
        NewRowsKeys(front, p);
        QtyZeroIfAbsent(front, p);
      }
    }
  }

  /** One order command moves stock into the ledger, or into the committed prefix of a rejection, and nowhere else. */
  lemma ProcessOrderConserves(db: Db, e: EventId, o: OrderId, lines: seq<Line>, now: int, p: ProductId)
    requires p in db.stock
    ensures var db' := ProcessOrder(db, e, o, lines, now).0;
            OnHand(db'.stock, p) + Held(RowsOf(db'.ledger, o), p) + Qty(Leaked(db, e, o, lines, now), p)
            == OnHand(db.stock, p) + Held(RowsOf(db.ledger, o), p)
  {
    if e !in db.processed && Refusal(db.stock, lines) == None && Insertable(RowsOf(db.ledger, o), lines) {
      NewRowsHold(RowsOf(db.ledger, o), lines, p);
      assert lines[..|lines|] == lines;
    }
  }

  /**
   * All-or-nothing fails for a rejected order: two units of "a" are gone, no ledger row holds them,
   * and the order is rejected because "b" is not stocked.
   */
  lemma RejectionCanConsumeStock()
    ensures var lines := [Line("a", 2), Line("b", 1)];
            var (db', att) := ProcessOrder(Db(map["a" := 5], {}, map[], map[]), CreatedId("o"), "o", lines, 0);
            att == Returned(ProcessingOutcome(Some(OrderRejected), false, Some(Unknown("b")))) &&
            db'.stock == map["a" := 3] && db'.ledger == map[]
  {
    var stock: Stock, lines := map["a" := 5], [Line("a", 2), Line("b", 1)];
    assert lines[..1] == [Line("a", 2)];
    assert "a" != "b" by { assert "a"[0] != "b"[0]; }
    assert Qty([], "a") == 0 && Qty([Line("a", 2)], "a") == 2 by { assert [Line("a", 2)][..0] == []; }
    assert !Short(stock, lines, 0) && Short(stock, lines, 1);
    assert Taken(stock, lines) == 1;
  }

  /** A rejection leaves the stock alone exactly when there was no first line, or the first line could not be taken. */
  lemma RejectionIsCleanIff(db: Db, e: EventId, o: OrderId, lines: seq<Line>, now: int)
    requires Positive(lines) && e !in db.processed && DecisionId(e) !in db.outbox
    requires Refusal(db.stock, lines) != None
    ensures ProcessOrder(db, e, o, lines, now).0.stock == db.stock <==>
            lines == [] || lines[0].productId !in db.stock || db.stock[lines[0].productId] < lines[0].quantity
  {
    var k := Taken(db.stock, lines);
    if lines != [] {
      assert lines[..0] == [];
      if k == 0 {
        assert Debit(db.stock, lines[..k]) == db.stock;
        assert Short(db.stock, lines, 0);
      } else {
        var p := lines[0].productId;
        assert !Short(db.stock, lines, 0);
        assert lines[..k][0] == lines[0];
        QtyOfPrefix(lines[..k], 0, p);
        assert lines[..k][..0] == [];
        assert Debit(db.stock, lines[..k])[p] < db.stock[p];
      }
    } else {
      assert Debit(db.stock, lines[..k]) == db.stock;
    }
  }

  /** The same transaction with the prefix undone on a rejection, as `reserve` does. */
  function ProcessOrderUndoing(db: Db, e: EventId, o: OrderId, lines: seq<Line>, now: int): (Db, Attempt) {
    var (db', att) := ProcessOrder(db, e, o, lines, now);
    (if Refusal(db.stock, lines) == None then db' else db'.(stock := db.stock), att)
  }

  /** With the prefix undone nothing leaks: stock and reservations balance for every order command. */
  lemma UndoingConserves(db: Db, e: EventId, o: OrderId, lines: seq<Line>, now: int, p: ProductId)
    requires p in db.stock
    ensures var db' := ProcessOrderUndoing(db, e, o, lines, now).0;
            OnHand(db'.stock, p) + Held(RowsOf(db'.ledger, o), p)
            == OnHand(db.stock, p) + Held(RowsOf(db.ledger, o), p)
    ensures ProcessOrderUndoing(db, e, o, lines, now).1 == ProcessOrder(db, e, o, lines, now).1
  {
    ProcessOrderConserves(db, e, o, lines, now, p);
    assert Qty([], p) == 0;
  }

  /** A release gives back exactly what the order held, leaves every other order alone, and cannot be repeated. */
  lemma ReleaseReturnsWhatWasHeld(db: Db, o: OrderId, now: int, later: int)
    ensures var (db', out) := Release(db, o, now);
            && (forall p :: p in db.stock ==>
                  OnHand(db'.stock, p) + Held(RowsOf(db'.ledger, o), p)
                  == OnHand(db.stock, p) + Held(RowsOf(db.ledger, o), p))
            && (forall x :: x != o ==> RowsOf(db'.ledger, x) == RowsOf(db.ledger, x))
            && Release(db', o, later) == (db', ProcessingOutcome(Some(OrderCancelled), true, None))
            && (out.duplicate <==> db' == db)
  {
    var db' := Release(db, o, now).0;
    if AnyReserved(RowsOf(db.ledger, o)) {
      assert RowsOf(db'.ledger, o) == AllReleased(RowsOf(db.ledger, o));
      assert !AnyReserved(RowsOf(db'.ledger, o));
      assert db'.ledger != db.ledger;
    }
  }

  /** A release is announced once, by a pending row of this moment; one that finds nothing reserved says so. */
  lemma ReleaseIsRecorded(db: Db, o: OrderId, now: int)
    ensures var (db', out) := Release(db, o, now);
            && out == ProcessingOutcome(Some(OrderCancelled), !AnyReserved(RowsOf(db.ledger, o)), None)
            && db'.processed == db.processed
            && (out.duplicate ==> db' == db)
            && (!out.duplicate && ReleasedId(o) !in db.outbox ==>
                  db'.outbox == db.outbox[ReleasedId(o) := OutcomeRow(OrderCancelled, o, None, false, now)])
  {
  }

  /**
   * Redelivering an order command that was decided changes nothing and reports the first verdict again. The reason
   * is repeated exactly when there was none to repeat, that is, when the order was confirmed.
   */
  lemma RedeliveredCommandIsAbsorbed(db: Db, e: EventId, o: OrderId, lines: seq<Line>, now: int,
                                     o2: OrderId, lines2: seq<Line>, later: int)
    requires e !in db.processed && ProcessOrder(db, e, o, lines, now).1 != Raised
    ensures var (db1, first) := ProcessOrder(db, e, o, lines, now);
            var (db2, second) := ProcessOrder(db1, e, o2, lines2, later);
            && db2 == db1 && second.Returned? && second.outcome.duplicate
            && second.outcome.verdict == first.outcome.verdict
            && (second.outcome.reason == first.outcome.reason <==> first.outcome.verdict == Some(OrderConfirmed))
  {
  }

  /** An order rejected for want of stock is reported without its reason when its command comes again. */
  lemma RedeliveryForgetsTheReason()
    ensures var lines := [Line("a", 2)];
            var (db1, first) := ProcessOrder(Db(map["a" := 1], {}, map[], map[]), CreatedId("o"), "o", lines, 0);
            && first == Returned(ProcessingOutcome(Some(OrderRejected), false, Some(Insufficient("a"))))
            && ProcessOrder(db1, CreatedId("o"), "o", lines, 1)
               == (db1, Returned(ProcessingOutcome(Some(OrderRejected), true, None)))
  {
    var stock: Stock, lines := map["a" := 1], [Line("a", 2)];
    assert lines[..0] == [] && Qty([], "a") == 0;
    assert Short(stock, lines, 0) && Taken(stock, lines) == 0;
  }

  // ---- the repository -------------------------------------------------------

  lemma InsertBlocked(rows: Rows, lines: seq<Line>, i: nat)
    requires i < |lines|
    requires lines[i].quantity <= 0 || lines[i].productId in rows + NewRows(lines[..i])
    ensures !Insertable(rows, lines)
  {
    NewRowsKeys(lines[..i], lines[i].productId);
    if lines[i].productId in NewRows(lines[..i]) {
      var j :| 0 <= j < i && lines[..i][j].productId == lines[i].productId;
      assert lines[j].productId == lines[i].productId;
    }
  }

  lemma InsertExtends(rows: Rows, lines: seq<Line>, i: nat)
    requires i < |lines| && Insertable(rows, lines[..i])
    requires lines[i].quantity > 0 && lines[i].productId !in rows + NewRows(lines[..i])
    ensures Insertable(rows, lines[..i + 1])
    ensures rows + NewRows(lines[..i + 1])
            == (rows + NewRows(lines[..i]))[lines[i].productId := LedgerRow(lines[i].quantity, Reserved)]
  {
    var a, b := lines[..i], lines[..i + 1];
    assert b[..i] == a && b[i] == lines[i];
    NewRowsKeys(a, lines[i].productId);
    assert forall j :: 0 <= j < i ==> b[j] == a[j];
  }

  class StockRepository {
    var stock: Stock
    var processed: set<EventId>
    var ledger: map<OrderId, Rows>
    var outbox: map<OutcomeId, OutcomeRow>

    constructor (stock: Stock)
      ensures Contents() == Db(stock, {}, map[], map[])
    {
      this.stock, processed, ledger, outbox := stock, {}, map[], map[];
    }

    function Contents(): Db
      reads this
    {
      Db(stock, processed, ledger, outbox)
    }

    /** The admin's absolute quantity; the table's check constraint refuses a negative one. */
    method Upsert(p: ProductId, quantity: int) returns (ok: bool)
      modifies this`stock
      ensures ok <==> quantity >= 0
      ensures stock == if ok then old(stock)[p := quantity] else old(stock)
      ensures old(NonNegative(stock)) ==> NonNegative(stock)
    {
      ok := quantity >= 0;
      if ok { stock := stock[p := quantity]; }
    }

    method ReserveInSession(lines: seq<Line>) returns (refusal: Option<Reason>)
      modifies this`stock
      ensures refusal == Refusal(old(stock), lines) && Explains(old(stock), lines, refusal)
      ensures stock == Debit(old(stock), lines[..Taken(old(stock), lines)])
    {
      ghost var was := stock;
      RefusalNamesTheFirstShortLine(was, lines);
      if lines == [] {
        assert Debit(was, []) == was;
        return Some(NoItems);
      }
      var i := 0;
      assert Debit(was, lines[..0]) == was;
      while i < |lines|
        invariant 0 <= i <= |lines|
        invariant forall j :: 0 <= j < i ==> !Short(was, lines, j)
        invariant stock == Debit(was, lines[..i])
      {
        var line := lines[i];
        OneDecrement(was, lines, i);
        if line.productId in stock && stock[line.productId] >= line.quantity {
          stock := stock[line.productId := stock[line.productId] - line.quantity];
          i := i + 1;
        } else {
          assert Taken(was, lines) == i;
          if line.productId in stock {
            return Some(Insufficient(line.productId));
          }
          return Some(Unknown(line.productId));
        }
      }
      assert Taken(was, lines) == |lines|;
      return None;
    }

    /** Every line or none: the rollback restores the stock on a refusal. */
    method Reserve(lines: seq<Line>) returns (refusal: Option<Reason>)
      modifies this`stock
      ensures refusal == Refusal(old(stock), lines) && Explains(old(stock), lines, refusal)
      ensures refusal == None ==> stock == Debit(old(stock), lines)
      ensures refusal != None ==> stock == old(stock)
    {
      if lines == [] {
        return Some(NoItems);
      }
      var snapshot := stock;
      refusal := ReserveInSession(lines);
      assert lines[..|lines|] == lines;
      if refusal != None {
        stock := snapshot;
      }
    }

    /** One transaction: receipt, stock, ledger and outcome are written together or not at all. */
    method Process(e: EventId, o: OrderId, lines: seq<Line>, now: int) returns (att: Attempt)
      modifies this
      ensures (Contents(), att) == ProcessOrder(old(Contents()), e, o, lines, now)
      ensures att.Returned? && e !in old(processed) ==>
                && !att.outcome.duplicate && Explains(old(stock), lines, att.outcome.reason)
                && att.outcome.verdict == Some(if att.outcome.reason == None then OrderConfirmed else OrderRejected)
                && DecisionId(e) in outbox
                && outbox[DecisionId(e)] == OutcomeRow(att.outcome.verdict.value, o, att.outcome.reason, false, now)
    {
      var id := DecisionId(e);
      if e in processed {
        if id in outbox {
          return Returned(ProcessingOutcome(Some(outbox[id].verdict), true, None));
        }
        return Returned(ProcessingOutcome(None, true, None));
      }
      var snapshot := stock;
      var refusal := ReserveInSession(lines);
      var rows := RowsOf(ledger, o);
      if refusal == None {
        var inserted := LedgerInserts(rows, lines);
        if inserted == None {
          stock := snapshot;
          return Raised;
        }
        rows := inserted.value;
      }
      if id in outbox {
        stock := snapshot;
        return Raised;
      }
      if refusal == None {
        ledger := ledger[o := rows];
      }
      var verdict := if refusal == None then OrderConfirmed else OrderRejected;
      processed := processed + {e};
      outbox := outbox[id := OutcomeRow(verdict, o, refusal, false, now)];
      return Returned(ProcessingOutcome(Some(verdict), false, refusal));
    }

    /** Adds one RESERVED row per line, or reports the constraint that a line violates. */
    static method LedgerInserts(rows: Rows, lines: seq<Line>) returns (r: Option<Rows>)
      ensures r == if Insertable(rows, lines) then Some(rows + NewRows(lines)) else None
      ensures r == None <==>
              exists i :: 0 <= i < |lines| &&
                (|| lines[i].quantity <= 0 || lines[i].productId in rows
                 || exists j :: 0 <= j < i && lines[j].productId == lines[i].productId)
    {
      var grown := rows;
      var i := 0;
      while i < |lines|
        invariant 0 <= i <= |lines|
        invariant Insertable(rows, lines[..i])
        invariant grown == rows + NewRows(lines[..i])
      {
        if lines[i].quantity <= 0 || lines[i].productId in grown {
          InsertBlocked(rows, lines, i);
          return None;
        }
        InsertExtends(rows, lines, i);
        grown := grown[lines[i].productId := LedgerRow(lines[i].quantity, Reserved)];
        i := i + 1;
      }
      assert lines[..i] == lines;
      return Some(grown);
    }

    method ReleaseReservation(o: OrderId, now: int) returns (out: ProcessingOutcome)
      modifies this
      ensures (Contents(), out) == Release(old(Contents()), o, now)
    {
      var rows := RowsOf(ledger, o);
      var reserved := set p | p in rows && rows[p].state == Reserved;
      if reserved == {} {
        assert forall p :: p in rows && rows[p].state == Reserved ==> p in reserved;
        return ProcessingOutcome(Some(OrderCancelled), true, None);
      }
      assert AnyReserved(rows) by { var p :| p in reserved; }
      ghost var was, held := stock, rows;
      var todo := reserved;
      while todo != {}
        invariant todo <= reserved && rows.Keys == held.Keys && stock.Keys == was.Keys
        invariant forall p :: p in stock ==> stock[p] == was[p] + (if p in reserved - todo then held[p].quantity else 0)
        invariant forall p :: p in rows ==>
                  rows[p] == if p in reserved - todo then held[p].(state := Released) else held[p]
        invariant processed == old(processed) && ledger == old(ledger) && outbox == old(outbox)
        decreases todo
      {
        var p :| p in todo;
        if p in stock {
          stock := stock[p := stock[p] + rows[p].quantity];
        }
        rows := rows[p := rows[p].(state := Released)];
        todo := todo - {p};
      }
      assert reserved - todo == reserved;
      assert rows == AllReleased(held);
      assert stock == map p | p in was :: was[p] + Held(held, p);
      ledger := ledger[o := rows];
      var id := ReleasedId(o);
      if id in outbox {
        outbox := outbox[id := outbox[id].(verdict := OrderCancelled, orderId := o, reason := None)];
      } else {
        outbox := outbox[id := OutcomeRow(OrderCancelled, o, None, false, now)];
      }
      return ProcessingOutcome(Some(OrderCancelled), false, None);
    }

    method PendingOutbox(limit: nat) returns (ids: seq<OutcomeId>)
      ensures OldestPending(outbox, limit, ids)
    {
      ids := [];
      var rest := set x | x in outbox && !outbox[x].published;
      while rest != {} && |ids| < limit
        invariant |ids| <= limit
        invariant forall x :: x in rest ==> x in outbox && !outbox[x].published && x !in ids
        invariant forall x :: x in outbox && !outbox[x].published ==> x in rest || x in ids
        invariant forall i :: 0 <= i < |ids| ==> ids[i] in outbox && !outbox[ids[i]].published
        invariant forall i, j :: 0 <= i < j < |ids| ==>
                  ids[i] != ids[j] && outbox[ids[i]].createdAt <= outbox[ids[j]].createdAt
        invariant forall x, i :: x in rest && 0 <= i < |ids| ==> outbox[ids[i]].createdAt <= outbox[x].createdAt
        decreases rest
      {
        var next := Oldest(rest);
        ids := ids + [next];
        rest := rest - {next};
      }
    }

    method Oldest(rest: set<OutcomeId>) returns (best: OutcomeId)
      requires rest != {} && forall x :: x in rest ==> x in outbox
      ensures best in rest && forall x :: x in rest ==> outbox[best].createdAt <= outbox[x].createdAt
    {
      best :| best in rest;
      var todo := rest - {best};
      while todo != {}
        invariant best in rest && todo <= rest
        invariant forall x :: x in rest && x !in todo ==> outbox[best].createdAt <= outbox[x].createdAt
        decreases todo
      {
        var x :| x in todo;
        if outbox[x].createdAt < outbox[best].createdAt { best := x; }
        todo := todo - {x};
      }
    }

    method MarkOutboxPublished(id: OutcomeId)
      modifies this`outbox
      ensures Contents() == MarkPublished(old(Contents()), id)
    {
      if id in outbox && !outbox[id].published {
        outbox := outbox[id := outbox[id].(published := true)];
      }
    }
  }
}
