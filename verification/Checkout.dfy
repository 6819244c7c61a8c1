/** From the lines of a request to a priced order: merging repeated products, reading the catalogue, adding up. */
module Checkout {
  import opened Common
  import opened SagaTypes
  import opened Pricing
  import opened PromotionIndex
  import Inventory

  // ---- merging repeated products --------------------------------------------

  const MAX_QUANTITY := 100

  /** The products of the lines, in order of first appearance. */
  function Firsts(lines: seq<Line>): (ids: seq<ProductId>)
    ensures forall p :: p in ids <==> exists i :: 0 <= i < |lines| && lines[i].productId == p
    ensures forall i, j :: 0 <= i < j < |ids| ==> ids[i] != ids[j]
  {
    if lines == [] then []
    else
      var front, last := lines[..|lines| - 1], lines[|lines| - 1];
      assert forall i :: 0 <= i < |front| ==> lines[i] == front[i];
      var ids := Firsts(front);
      if last.productId in ids then ids else ids + [last.productId]
  }

  /** Some line names `p`, and no line up to it names `q`. */
  predicate NamedBefore(lines: seq<Line>, p: ProductId, q: ProductId) {
    exists k :: 0 <= k < |lines| && lines[k].productId == p && forall l :: 0 <= l <= k ==> lines[l].productId != q
  }

  /** Products are listed in the order in which the lines first name them. */
  lemma {:induction false} FirstsKeepOrder(lines: seq<Line>, i: nat, j: nat)
    requires i < j < |Firsts(lines)|
    ensures NamedBefore(lines, Firsts(lines)[i], Firsts(lines)[j])
  {
    var front := lines[..|lines| - 1];
    var p, q := Firsts(lines)[i], Firsts(lines)[j];
    if j < |Firsts(front)| {
      FirstsKeepOrder(front, i, j);
      var k :| 0 <= k < |front| && front[k].productId == p && forall l :: 0 <= l <= k ==> front[l].productId != q;
      assert lines[k] == front[k] && forall l :: 0 <= l <= k ==> lines[l] == front[l];
    } else {
      assert p in Firsts(front) && q !in Firsts(front);
      var k :| 0 <= k < |front| && front[k].productId == p;
      assert lines[k] == front[k] && forall l :: 0 <= l <= k ==> lines[l] == front[l] && front[l].productId != q;
    }
  }

  /** One line a product, carrying the product's total. */
  function Merged(lines: seq<Line>, ids: seq<ProductId>): seq<Line> {
    seq(|ids|, i requires 0 <= i < |ids| => Line(ids[i], Inventory.Qty(lines, ids[i])))
  }

  /** With line `k`, the product of that line goes over the limit. */
  predicate Exceeds(lines: seq<Line>, k: nat)
    requires k < |lines|
  {
    Inventory.Qty(lines[..k + 1], lines[k].productId) > MAX_QUANTITY
  }

  lemma OneMoreLine(lines: seq<Line>, i: nat, p: ProductId)
    requires i < |lines|
    ensures Inventory.Qty(lines[..i + 1], p)
            == Inventory.Qty(lines[..i], p) + (if lines[i].productId == p then lines[i].quantity else 0)
    ensures Firsts(lines[..i + 1])
            == if lines[i].productId in Firsts(lines[..i]) then Firsts(lines[..i])
               else Firsts(lines[..i]) + [lines[i].productId]
  {
    assert lines[..i + 1][..i] == lines[..i];
  }

  /** The totals kept by the loop: one entry for each product seen so far. */
  ghost predicate Tallies(quantities: map<ProductId, int>, order: seq<ProductId>, seen: seq<Line>) {
    && order == Firsts(seen)
    && (forall p :: p in quantities <==> p in order)
    && (forall p :: Inventory.Qty(seen, p) == if p in quantities then quantities[p] else 0)
  }

  lemma TallyStep(lines: seq<Line>, i: nat, quantities: map<ProductId, int>, order: seq<ProductId>)
    requires i < |lines| && Tallies(quantities, order, lines[..i])
    ensures var p := lines[i].productId;
            var total := (if p in quantities then quantities[p] else 0) + lines[i].quantity;
            && Tallies(quantities[p := total], if p in quantities then order else order + [p], lines[..i + 1])
            && total == Inventory.Qty(lines[..i + 1], p)
  {
    forall p {
      OneMoreLine(lines, i, p);
    }
    OneMoreLine(lines, i, lines[i].productId);
  }

  lemma TallyLine(lines: seq<Line>, i: nat, quantities: map<ProductId, int>, order: seq<ProductId>,
                  quantities': map<ProductId, int>, order': seq<ProductId>)
    requires i < |lines| && Tallies(quantities, order, lines[..i])
    requires var p := lines[i].productId;
             && order' == (if p in quantities then order else order + [p])
             && quantities' == quantities[p := (if p in quantities then quantities[p] else 0) + lines[i].quantity]
    ensures Tallies(quantities', order', lines[..i + 1])
    ensures Exceeds(lines, i) <==> quantities'[lines[i].productId] > MAX_QUANTITY
  {
    TallyStep(lines, i, quantities, order);
  }

  function Listed(quantities: map<ProductId, int>, order: seq<ProductId>): seq<Line>
    requires forall p :: p in order ==> p in quantities
  {
    seq(|order|, j requires 0 <= j < |order| => assert order[j] in order; Line(order[j], quantities[order[j]]))
  }

  lemma ListedIsMerged(quantities: map<ProductId, int>, order: seq<ProductId>, lines: seq<Line>)
    requires Tallies(quantities, order, lines)
    ensures Listed(quantities, order) == Merged(lines, Firsts(lines))
  {
    assert forall j :: 0 <= j < |order| ==> order[j] in order;
  }

  method AggregateDuplicateProducts(lines: seq<Line>) returns (items: Option<seq<Line>>)
    ensures items == None <==> exists k :: 0 <= k < |lines| && Exceeds(lines, k)
    ensures items != None ==> items.value == Merged(lines, Firsts(lines))
  {
    var quantities: map<ProductId, int> := map[];
    var order: seq<ProductId> := [];
    var i := 0;
    while i < |lines|
      invariant 0 <= i <= |lines| && Tallies(quantities, order, lines[..i])
      invariant forall k :: 0 <= k < i ==> !Exceeds(lines, k)
    {
      var line := lines[i];
      ghost var so, listed := quantities, order;
      if line.productId !in quantities {
        order := order + [line.productId];
        quantities := quantities[line.productId := 0];
      }
      quantities := quantities[line.productId := quantities[line.productId] + line.quantity];
      TallyLine(lines, i, so, listed, quantities, order);
      if quantities[line.productId] > MAX_QUANTITY {
        return None;
      }
      i := i + 1;
    }
    assert lines[..i] == lines;
    ListedIsMerged(quantities, order, lines);
    items := Some(Listed(quantities, order));
  }

  /** With line `k` the product has its total. */
  predicate Completes(lines: seq<Line>, p: ProductId, k: nat) {
    k < |lines| && lines[k].productId == p && Inventory.Qty(lines[..k + 1], p) == Inventory.Qty(lines, p)
  }

  lemma {:induction false} LastMention(lines: seq<Line>, p: ProductId)
    requires Inventory.Qty(lines, p) > 0
    ensures exists k :: Completes(lines, p, k)
  {
    var front, last := lines[..|lines| - 1], lines[|lines| - 1];
    assert lines[..|lines|] == lines;
    if last.productId != p {
      LastMention(front, p);
      var k :| Completes(front, p, k);
      assert front[..k + 1] == lines[..k + 1];
      assert Completes(lines, p, k);
    } else {
      assert Completes(lines, p, |lines| - 1);
    }
  }

  /** For lines of positive quantity, only the totals decide whether a request is refused. */
  lemma RefusedIffSomeTotalExceeds(lines: seq<Line>)
    requires Inventory.Positive(lines)
    ensures (exists k :: 0 <= k < |lines| && Exceeds(lines, k))
            <==> exists p :: Inventory.Qty(lines, p) > 100
  {
    if k: nat :| 0 <= k < |lines| && Exceeds(lines, k) {
      Inventory.QtyOfPrefix(lines, k + 1, lines[k].productId);
    }
    if p :| Inventory.Qty(lines, p) > 100 {
      LastMention(lines, p);
      var k :| Completes(lines, p, k);
      assert Exceeds(lines, k);
    }
  }

  lemma {:induction false} MergedQty(lines: seq<Line>, ids: seq<ProductId>, p: ProductId)
    requires forall i, j :: 0 <= i < j < |ids| ==> ids[i] != ids[j]
    ensures Inventory.Qty(Merged(lines, ids), p) == if p in ids then Inventory.Qty(lines, p) else 0
  {
    if ids == [] {
    } else {
      var front := ids[..|ids| - 1];
      MergedQty(lines, front, p);
      assert Merged(lines, ids)[..|ids| - 1] == Merged(lines, front);
      assert ids == front + [ids[|ids| - 1]];
    }
  }

  /** Merging moves no quantity, so it decides neither whether stock suffices nor what is taken. */
  lemma MergingKeepsQuantities(lines: seq<Line>, p: ProductId)
    ensures Inventory.Qty(Merged(lines, Firsts(lines)), p) == Inventory.Qty(lines, p)
  {
    MergedQty(lines, Firsts(lines), p);
    if p !in Firsts(lines) { Inventory.QtyZeroIfAbsent(lines, p); }
  }

  lemma PositiveTotals(lines: seq<Line>, i: nat)
    requires Inventory.Positive(lines) && i < |lines|
    ensures Inventory.Qty(lines, lines[i].productId) > 0
  {
    Inventory.QtyOfPrefix(lines, i, lines[i].productId);
  }

  lemma MergedIsInsertable(lines: seq<Line>)
    requires Inventory.Positive(lines)
    ensures var items := Merged(lines, Firsts(lines));
            Inventory.Positive(items) && Inventory.Insertable(map[], items) && (items == [] <==> lines == [])
  {
    var ids := Firsts(lines);
    forall j | 0 <= j < |ids| ensures Inventory.Qty(lines, ids[j]) > 0 {
      assert ids[j] in ids;
      var i :| 0 <= i < |lines| && lines[i].productId == ids[j];
      PositiveTotals(lines, i);
    }
    assert lines != [] ==> lines[0].productId in ids;
  }

  lemma StockedAlike(lines: seq<Line>, items: seq<Line>, stock: Inventory.Stock)
    requires items == Merged(lines, Firsts(lines))
    requires forall p :: Inventory.Qty(items, p) == Inventory.Qty(lines, p)
    ensures Inventory.Stocked(stock, items) <==> Inventory.Stocked(stock, lines)
  {
    if Inventory.Stocked(stock, items) {
      forall i | 0 <= i < |lines| ensures Inventory.StockedAt(stock, lines, i) {
        assert lines[i].productId in Firsts(lines);
        var j :| 0 <= j < |items| && Firsts(lines)[j] == lines[i].productId;
        assert Inventory.StockedAt(stock, items, j);
      }
    }
    if Inventory.Stocked(stock, lines) {
      forall j | 0 <= j < |items| ensures Inventory.StockedAt(stock, items, j) {
        assert Firsts(lines)[j] in Firsts(lines);
        var i :| 0 <= i < |lines| && lines[i].productId == Firsts(lines)[j];
        assert Inventory.StockedAt(stock, lines, i);
      }
    }
  }

  /**
   * What the inventory needs of an order: one line a product, each of positive quantity. The merged order is
   * accepted exactly when the stock covers the original lines, takes the same stock, and always fits the ledger.
   */
  lemma MergedOrderIsEquivalent(lines: seq<Line>, stock: Inventory.Stock)
    requires Inventory.Positive(lines)
    ensures var items := Merged(lines, Firsts(lines));
            && Inventory.Positive(items) && Inventory.Insertable(map[], items)
            && (items == [] <==> lines == [])
            && (Inventory.Refusal(stock, items) == None <==> Inventory.Refusal(stock, lines) == None)
            && Inventory.Debit(stock, items) == Inventory.Debit(stock, lines)
  {
    var items := Merged(lines, Firsts(lines));
    MergedIsInsertable(lines);
    forall p ensures Inventory.Qty(items, p) == Inventory.Qty(lines, p) {
      MergingKeepsQuantities(lines, p);
    }
    StockedAlike(lines, items, stock);
    Inventory.ReservableIff(stock, items);
    Inventory.ReservableIff(stock, lines);
  }

  // ---- reading the catalogue ------------------------------------------------

  type Catalogue = map<ProductId, Item>

  /** One answer of the batch read: some items, and the keys it did not get to. */
  datatype Reply = Failure | Reply(items: seq<Item>, unprocessed: set<ProductId>)

  /** Every requested key is either left over or answered: with its item, or with nothing if there is none. */
  ghost predicate Honest(r: Reply, keys: set<ProductId>, table: Catalogue) {
    r.Reply? ==>
      && r.unprocessed <= keys
      && (forall item :: item in r.items ==> item.id in keys && item.id in table && table[item.id] == item)
      && (forall k :: k in keys - r.unprocessed && k in table ==> table[k] in r.items)
  }

  ghost predicate HonestRun(replies: seq<Reply>, keys: set<ProductId>, table: Catalogue) {
    replies != [] ==>
      && Honest(replies[0], keys, table)
      && (replies[0].Reply? ==> HonestRun(replies[1..], replies[0].unprocessed, table))
  }

  predicate Partial(r: Reply) {
    r.Reply? && r.unprocessed != {}
  }

  /** Later items replace earlier ones. */
  function Updated(m: Catalogue, items: seq<Item>): Catalogue {
    if items == [] then m
    else Updated(m, items[..|items| - 1])[items[|items| - 1].id := items[|items| - 1]]
  }

  lemma {:induction false} UpdatedHolds(m: Catalogue, items: seq<Item>)
    ensures forall k :: k in Updated(m, items) <==> k in m || exists i :: 0 <= i < |items| && items[i].id == k
    ensures forall k :: k in Updated(m, items) ==>
              (k in m && Updated(m, items)[k] == m[k])
              || (Updated(m, items)[k] in items && Updated(m, items)[k].id == k)
  {
    if items == [] {
    } else {
      UpdatedHolds(m, items[..|items| - 1]);
    }
  }

  /** What has been found is right, and what has been asked for and is still missing is among the keys left. */
  ghost predicate Progress(found: Catalogue, keys: set<ProductId>, ids: seq<ProductId>, table: Catalogue) {
    && (forall k :: k in keys ==> k in ids)
    && (forall k :: k in found ==> k in ids && k in table && found[k] == table[k])
    && (forall k :: k in ids && k in table && k !in keys ==> k in found)
  }

  lemma ReplyMakesProgress(found: Catalogue, keys: set<ProductId>, ids: seq<ProductId>, reply: Reply, table: Catalogue)
    requires forall k :: k in table ==> table[k].id == k
    requires Progress(found, keys, ids, table) && Honest(reply, keys, table) && reply.Reply?
    ensures Progress(Updated(found, reply.items), reply.unprocessed, ids, table)
  {
    var now := Updated(found, reply.items);
    UpdatedHolds(found, reply.items);
    forall k | k in now ensures k in ids && k in table && now[k] == table[k] {
      if now[k] in reply.items && now[k].id == k { assert table[now[k].id] == now[k]; }
    }
    forall k | k in ids && k in table && k !in reply.unprocessed ensures k in now {
      if k in keys {
        assert table[k] in reply.items;
        var i :| 0 <= i < |reply.items| && reply.items[i] == table[k];
      }
    }
  }

  /**
   * At most four calls. It returns exactly the requested part of the catalogue, or fails, and it fails exactly
   * when a call fails or the fourth still leaves keys over.
   */
  method BatchGetProducts(ids: seq<ProductId>, replies: seq<Reply>, ghost table: Catalogue)
    returns (products: Option<Catalogue>, calls: nat)
    requires |replies| >= 4 && HonestRun(replies, (set p | p in ids), table)
    requires forall k :: k in table ==> table[k].id == k
    ensures 1 <= calls <= 4 && forall i :: 0 <= i < calls - 1 ==> Partial(replies[i])
    ensures products == None <==> replies[calls - 1].Failure? || (calls == 4 && Partial(replies[3]))
    ensures products != None ==> products.value == map k | k in table && k in ids :: table[k]
  {
    var keys := set p | p in ids;
    var found: Catalogue := map[];
    calls := 0;
    while calls < 4
      invariant 0 <= calls <= 4 && HonestRun(replies[calls..], keys, table) && Progress(found, keys, ids, table)
      invariant forall i :: 0 <= i < calls ==> Partial(replies[i])
    {
      var reply := replies[calls];
      assert replies[calls..][0] == reply && replies[calls..][1..] == replies[calls + 1..];
      calls := calls + 1;
      if reply.Failure? {
        return None, calls;
      }
      ReplyMakesProgress(found, keys, ids, reply, table);
      found := Updated(found, reply.items);
      if reply.unprocessed == {} {
        return Some(found), calls;
      }
      keys := reply.unprocessed;
    }
    products := None;
  }

  // ---- adding up ------------------------------------------------------------

  datatype Snapshot = Snapshot(
    productId: ProductId, name: string, quantity: int, base: int, effective: int, discount: int,
    lineDiscount: int, lineTotal: int, promotionId: Option<string>)

  datatype PricedOrder =
    | Priced(items: seq<Snapshot>, subtotal: int, discountTotal: int, totalAmount: int)
    | Unavailable(productId: ProductId)

  predicate Sellable(products: Catalogue, p: ProductId) {
    p in products && products[p].active != Some(false)
  }

  function QuoteFor(p: ProductId, item: Item, promotions: seq<Promotion>, now: int): Quote {
    EffectivePrice(item.price, p, Category(item), promotions, now)
  }

  /** The discount a unit is shown with is exactly what was taken off. */
  lemma UnitDiscount(p: ProductId, item: Item, promotions: seq<Promotion>, now: int)
    ensures var q := QuoteFor(p, item, promotions, now); q.discount == q.base - q.effective
  {
    var q := QuoteFor(p, item, promotions, now);
    assert Pounds(q.base) - Pounds(q.effective) == Pounds(q.base - q.effective);
    MoneyKeepsPence(q.base - q.effective);
  }

  /** Amounts times quantities never need rounding, because unit amounts are whole pence. */
  lemma WholePence(pence: int, quantity: int)
    ensures Pounds(pence) * quantity as real == Pounds(pence * quantity)
    ensures Money(Pounds(pence) * quantity as real) == pence * quantity
  {
    ProductOfReals(pence, quantity);
    MoneyKeepsPence(pence * quantity);
  }

  function SnapshotOf(line: Line, item: Item, q: Quote): Snapshot {
    Snapshot(line.productId, if item.name == None then line.productId else item.name.value, line.quantity,
             q.base, q.effective, q.discount, Money(Pounds(q.discount) * line.quantity as real),
             Money(Pounds(q.effective) * line.quantity as real), q.promotionId)
  }

  function Gross(items: seq<Snapshot>): real {
    if items == [] then 0.0
    else Gross(items[..|items| - 1]) + Pounds(items[|items| - 1].base) * items[|items| - 1].quantity as real
  }

  function Discounts(items: seq<Snapshot>): real {
    if items == [] then 0.0
    else Discounts(items[..|items| - 1]) + Pounds(items[|items| - 1].lineDiscount)
  }

  function SumOf(items: seq<Snapshot>): int {
    if items == [] then 0 else SumOf(items[..|items| - 1]) + items[|items| - 1].lineTotal
  }

  /** A line whose unit amounts are whole pence and whose line amounts are their multiples. */
  predicate Exact(s: Snapshot) {
    && s.lineDiscount == s.discount * s.quantity && s.lineTotal == s.effective * s.quantity
    && s.discount == s.base - s.effective
  }

  predicate Fair(s: Snapshot) {
    s.quantity > 0 && 0 <= s.effective <= s.base
  }

  lemma AddPence(a: int, b: int)
    ensures Pounds(a) + Pounds(b) == Pounds(a + b) && Money(Pounds(a) + Pounds(b)) == a + b
  {
    MoneyKeepsPence(a + b);
  }

  lemma {:induction false} GrossIsWholePence(items: seq<Snapshot>)
    ensures Gross(items) == Pounds(Money(Gross(items)))
    ensures items != [] ==>
              var last := items[|items| - 1];
              Money(Gross(items)) == Money(Gross(items[..|items| - 1])) + last.base * last.quantity
  {
    if items == [] {
      MoneyKeepsPence(0);
    } else {
      GrossIsWholePence(items[..|items| - 1]);
      var g, last := Money(Gross(items[..|items| - 1])), items[|items| - 1];
      WholePence(last.base, last.quantity);
      AddPence(g, last.base * last.quantity);
      assert Gross(items) == Pounds(g + last.base * last.quantity);
    }
  }

  lemma {:induction false} DiscountsAreWholePence(items: seq<Snapshot>)
    ensures Discounts(items) == Pounds(Money(Discounts(items)))
    ensures items != [] ==>
              Money(Discounts(items)) == Money(Discounts(items[..|items| - 1])) + items[|items| - 1].lineDiscount
  {
    if items == [] {
      MoneyKeepsPence(0);
    } else {
      DiscountsAreWholePence(items[..|items| - 1]);
      AddPence(Money(Discounts(items[..|items| - 1])), items[|items| - 1].lineDiscount);
    }
  }

  lemma LineAddsUp(s: Snapshot)
    requires Exact(s)
    ensures s.base * s.quantity - s.lineDiscount == s.lineTotal
    ensures Fair(s) ==> 0 <= s.lineDiscount <= s.base * s.quantity
  {
    assert s.base * s.quantity == s.discount * s.quantity + s.effective * s.quantity;
  }

  /** Over any lines, the gross and the discounts are whole pence and differ by exactly the sum of the line totals. */
  lemma {:induction false} TotalsNeverDrift(items: seq<Snapshot>)
    requires forall s :: s in items ==> Exact(s)
    ensures Gross(items) == Pounds(Money(Gross(items))) && Discounts(items) == Pounds(Money(Discounts(items)))
    ensures Money(Gross(items)) - Money(Discounts(items)) == SumOf(items)
    ensures (forall s :: s in items ==> Fair(s)) ==> 0 <= Money(Discounts(items)) <= Money(Gross(items))
  {
    GrossIsWholePence(items);
    DiscountsAreWholePence(items);
    if items == [] {
      MoneyKeepsPence(0);
    } else {
      TotalsNeverDrift(items[..|items| - 1]);
      assert items[|items| - 1] in items;
      LineAddsUp(items[|items| - 1]);
    }
  }

  ghost predicate Sane(products: Catalogue, promotions: seq<Promotion>) {
    && (forall k :: k in products ==> products[k].price >= 0.0)
    && (forall p :: p in promotions ==> 0 <= p.discount <= 10000)
  }

  lemma SnapshotIsExact(line: Line, item: Item, q: Quote)
    requires q.discount == q.base - q.effective
    ensures Exact(SnapshotOf(line, item, q))
  {
    WholePence(q.discount, line.quantity);
    WholePence(q.effective, line.quantity);
  }

  lemma QuoteInRange(p: ProductId, item: Item, promotions: seq<Promotion>, now: int)
    requires item.price >= 0.0 && forall p :: p in promotions ==> 0 <= p.discount <= 10000
    ensures var q := QuoteFor(p, item, promotions, now); 0 <= q.effective <= q.base
  {
    ChosenPromotionIsBest(item.price, p, Category(item), promotions, now);
  }

  /** The snapshot shows the line's product and quantity at the quoted price. */
  predicate Shows(s: Snapshot, line: Line, products: Catalogue, promotions: seq<Promotion>, now: int) {
    Sellable(products, line.productId) &&
    var q := QuoteFor(line.productId, products[line.productId], promotions, now);
    && s.productId == line.productId && s.quantity == line.quantity
    && s.name == (match products[line.productId].name case None => line.productId case Some(n) => n)
    && s.base == q.base && s.effective == q.effective && s.promotionId == q.promotionId
  }

  function QuoteOf(s: Snapshot): Quote {
    Quote(s.base, s.effective, s.discount, s.promotionId)
  }

  /** The line is charged at the best offer for its product. */
  ghost predicate Charged(s: Snapshot, line: Line, products: Catalogue, promotions: seq<Promotion>, now: int) {
    && line.productId in products
    && var item := products[line.productId];
       BestOffer(QuoteOf(s), item.price, line.productId, item.category, promotions, now)
  }

  /**
   * What the storefront shows for a product is what the checkout charges for it, each having read the promotions of
   * the same table through pages of its own.
   */
  lemma ShownIsCharged(table: seq<Row>, shown: seq<seq<Row>>, charged: seq<seq<Row>>, item: Item, now: int,
                       display: Quote, s: Snapshot, line: Line, products: Catalogue)
    requires Clock(table, now) && Answers(shown, table, now) && Answers(charged, table, now)
    requires Offer(display, item, Decoded(Flat(shown), now), now)
    requires line.productId == item.id && item.id in products && products[item.id] == item
    requires Charged(s, line, products, Decoded(Flat(charged), now), now)
    ensures QuoteOf(s) == display
  {
    StorefrontAndCheckoutAgree(table, shown, charged, item, now, display, QuoteOf(s));
  }

  predicate AllSellable(products: Catalogue, lines: seq<Line>) {
    forall i :: 0 <= i < |lines| ==> Sellable(products, lines[i].productId)
  }

  function Total(items: seq<Snapshot>): PricedOrder {
    var subtotal, discountTotal := Money(Gross(items)), Money(Discounts(items));
    Priced(items, subtotal, discountTotal, Money(Pounds(subtotal) - Pounds(discountTotal)))
  }

  lemma TotalIsExact(items: seq<Snapshot>)
    ensures Total(items).totalAmount == Total(items).subtotal - Total(items).discountTotal
  {
    var subtotal, discountTotal := Money(Gross(items)), Money(Discounts(items));
    AddPence(subtotal, -discountTotal);
    assert Pounds(subtotal) - Pounds(discountTotal) == Pounds(subtotal) + Pounds(-discountTotal);
  }

  /** Everything a priced line owes to its order line: the product is on sale, and the amounts are right. */
  ghost predicate Right(s: Snapshot, line: Line, products: Catalogue, promotions: seq<Promotion>, now: int) {
    && line.productId in products && products[line.productId].active != Some(false)
    && Shows(s, line, products, promotions, now) && Exact(s) && Charged(s, line, products, promotions, now)
    && (line.quantity > 0 && Sane(products, promotions) ==> Fair(s))
  }

  lemma QuotedLineIsRight(line: Line, products: Catalogue, promotions: seq<Promotion>, now: int)
    requires Sellable(products, line.productId)
    ensures var item := products[line.productId];
            Right(SnapshotOf(line, item, QuoteFor(line.productId, item, promotions, now)), line, products, promotions,
                  now)
  {
    var item := products[line.productId];
    UnitDiscount(line.productId, item, promotions, now);
    SnapshotIsExact(line, item, QuoteFor(line.productId, item, promotions, now));
    EffectivePriceIsBestOffer(item.price, line.productId, item.category, Category(item), promotions, now);
    if Sane(products, promotions) {
      QuoteInRange(line.productId, item, promotions, now);
    }
  }

  ghost predicate AllRight(items: seq<Snapshot>, lines: seq<Line>, products: Catalogue, promotions: seq<Promotion>,
                           now: int) {
    |items| == |lines| && forall i :: 0 <= i < |lines| ==> Right(items[i], lines[i], products, promotions, now)
  }

  lemma OneMoreRight(items: seq<Snapshot>, s: Snapshot, lines: seq<Line>, i: nat, products: Catalogue,
                     promotions: seq<Promotion>, now: int)
    requires i < |lines| && AllRight(items, lines[..i], products, promotions, now)
    requires Right(s, lines[i], products, promotions, now)
    ensures AllRight(items + [s], lines[..i + 1], products, promotions, now)
  {
  }

  lemma RightTotals(items: seq<Snapshot>, lines: seq<Line>, products: Catalogue, promotions: seq<Promotion>, now: int)
    requires AllRight(items, lines, products, promotions, now)
    ensures var r := Total(items);
            && r.totalAmount == SumOf(items) == r.subtotal - r.discountTotal
            && Pounds(r.subtotal) == Gross(items) && Pounds(r.discountTotal) == Discounts(items)
            && (Inventory.Positive(lines) && Sane(products, promotions) ==> 0 <= r.discountTotal <= r.subtotal)
  {
    forall s | s in items ensures Exact(s) && (Inventory.Positive(lines) && Sane(products, promotions) ==> Fair(s)) {
      var i :| 0 <= i < |items| && items[i] == s;
      assert Right(items[i], lines[i], products, promotions, now);
    }
    TotalsNeverDrift(items);
    TotalIsExact(items);
  }

  /** Prices every line, or names the first product that cannot be sold. The totals are exact to the penny. */
  method PriceOrder(lines: seq<Line>, products: Catalogue, promotions: seq<Promotion>, now: int)
    returns (r: PricedOrder)
    ensures r.Unavailable? ==> r.productId !in products || products[r.productId].active == Some(false)
    ensures r.Unavailable? ==>
              exists k :: 0 <= k < |lines| && lines[k].productId == r.productId && AllSellable(products, lines[..k])
    ensures r.Priced? ==> AllRight(r.items, lines, products, promotions, now)
    ensures r.Priced? ==> r.totalAmount == SumOf(r.items) == r.subtotal - r.discountTotal
    ensures r.Priced? ==> Pounds(r.subtotal) == Gross(r.items) && Pounds(r.discountTotal) == Discounts(r.items)
    ensures r.Priced? && Inventory.Positive(lines) && Sane(products, promotions) ==> 0 <= r.discountTotal <= r.subtotal
  {
    var snapshots: seq<Snapshot> := [];
    var i := 0;
    while i < |lines|
      invariant 0 <= i <= |lines| && AllSellable(products, lines[..i])
      invariant AllRight(snapshots, lines[..i], products, promotions, now)
    {
      var line := lines[i];
      if !Sellable(products, line.productId) {
        return Unavailable(line.productId);
      }
      var quote := QuoteFor(line.productId, products[line.productId], promotions, now);
      var snapshot := SnapshotOf(line, products[line.productId], quote);
      QuotedLineIsRight(line, products, promotions, now);
      OneMoreRight(snapshots, snapshot, lines, i, products, promotions, now);
      snapshots := snapshots + [snapshot];
      i := i + 1;
    }
    assert lines[..i] == lines;
    RightTotals(snapshots, lines, products, promotions, now);
    r := Total(snapshots);
  }
}
