/**
 * How both services find the promotions that may apply: an index that is searched by the text of the stored start
 * time, read page by page. Pricing is then done on what came back.
 */
module PromotionIndex {
  import opened Common
  import opened Pricing

  // ---- stored times ---------------------------------------------------------

  function Pow10(w: nat): (n: nat)
    ensures n > 0
  {
    if w == 0 then 1 else 10 * Pow10(w - 1)
  }

  /** Microseconds of wall-clock time since an origin, and the zone's offset from UTC in minutes. */
  datatype Stamp = Stamp(local: int, offset: int)
  {
    function Instant(): int { local - offset * 60000000 }

    predicate Writable() { 0 <= local < Pow10(18) && -1440 < offset < 1440 }
  }

  function Digit(d: int): char
    requires 0 <= d < 10
  {
    '0' + d as char
  }

  /** `w` decimal digits. */
  function Digits(n: nat, w: nat): string {
    if w == 0 then "" else Digits(n / 10, w - 1) + [Digit(n % 10)]
  }

  /** The fraction is left out when it is zero. */
  function Fraction(micros: nat): string {
    if micros == 0 then "" else "." + Digits(micros, 6)
  }

  function Zone(offset: int): string {
    var m := if offset < 0 then -offset else offset;
    (if offset < 0 then "-" else "+") + Digits(m / 60, 2) + ":" + Digits(m % 60, 2)
  }

  /** What follows the seconds: the fraction and the zone. */
  function Tail(micros: nat, offset: int): string {
    Fraction(micros) + Zone(offset)
  }

  /** The stored text. The calendar part has a fixed width and is written here as a count of seconds. */
  function Text(s: Stamp): string
    requires s.Writable()
  {
    Digits(s.local / 1000000, 12) + Tail(s.local % 1000000, s.offset)
  }

  /** Fixed-width numbers compare as their values, and only a tie looks at what follows them. */
  lemma {:induction false} DigitsOrder(a: nat, b: nat, w: nat, x: string, y: string)
    requires a < Pow10(w) && b < Pow10(w)
    ensures StringLess(Digits(a, w) + x, Digits(b, w) + y) <==> a < b || (a == b && StringLess(x, y))
  {
    if w == 0 {
      assert Digits(a, 0) + x == x && Digits(b, 0) + y == y;
    } else {
      var xs, ys := [Digit(a % 10)] + x, [Digit(b % 10)] + y;
      DigitsOrder(a / 10, b / 10, w - 1, xs, ys);
      assert Digits(a, w) + x == Digits(a / 10, w - 1) + xs;
      assert Digits(b, w) + y == Digits(b / 10, w - 1) + ys;
      assert xs[1..] == x && ys[1..] == y;
    }
  }

  /** Against a UTC time, an offset of zero ties and every other offset sorts later: '+' comes before '-'. */
  lemma ZoneOrder(offset: int)
    requires -1440 < offset < 1440
    ensures StringLess(Zone(0), Zone(offset)) <==> offset != 0
  {
    assert Pow10(2) == 100 by { assert Pow10(1) == 10; }
    var m := if offset < 0 then -offset else offset;
    var rest := Digits(m / 60, 2) + (":" + Digits(m % 60, 2));
    var zero := Digits(0, 2) + (":" + Digits(0, 2));
    assert Zone(offset) == (if offset < 0 then "-" else "+") + rest;
    assert Zone(0) == "+" + zero;
    assert Zone(0)[1..] == zero && Zone(offset)[1..] == rest;
    DigitsOrder(0, m / 60, 2, ":" + Digits(0, 2), ":" + Digits(m % 60, 2));
    assert (":" + Digits(0, 2))[1..] == Digits(0, 2) + "" && (":" + Digits(m % 60, 2))[1..] == Digits(m % 60, 2) + "";
    DigitsOrder(0, m % 60, 2, "", "");
  }

  lemma TailStart(m: nat, offset: int)
    ensures m == 0 ==> Tail(m, offset) == Zone(offset) && Tail(m, offset)[0] == (if offset < 0 then '-' else '+')
    ensures m > 0 ==> Tail(m, offset)[0] == '.' && Tail(m, offset)[1..] == Digits(m, 6) + Zone(offset)
  {
  }

  lemma Powers()
    ensures Pow10(6) == 1000000 && Pow10(12) == 1000000000000 && Pow10(18) == 1000000000000000000
  {
    assert Pow10(3) == 1000 by { assert Pow10(1) == 10; }
    assert Pow10(6) == 1000000;
    assert Pow10(9) == 1000000000;
    assert Pow10(12) == 1000000000000;
    assert Pow10(15) == 1000000000000000;
  }

  /** A fraction, or the sign of the zone in its place: '+' and '-' both come before '.'. */
  lemma TailOrder(m: nat, n: nat, offset: int)
    requires m < 1000000 && n < 1000000 && -1440 < offset < 1440
    ensures StringLess(Tail(m, 0), Tail(n, offset)) <==> m < n || (m == n && offset != 0)
  {
    ZoneOrder(offset);
    TailStart(m, 0);
    TailStart(n, offset);
    if m > 0 && n > 0 {
      Powers();
      DigitsOrder(m, n, 6, Zone(0), Zone(offset));
    }
  }

  /** The text condition of the index query. */
  predicate Reached(start: Stamp, now: int)
    requires start.Writable() && 0 <= now < Pow10(18)
  {
    !StringLess(Text(Stamp(now, 0)), Text(start))
  }

  predicate OnTheClock(start: Stamp, now: int) {
    start.local < now || (start.local == now && start.offset == 0)
  }

  /** What comparing the texts means: the wall clock of the start is compared, and its zone only breaks ties. */
  lemma ReachedIff(start: Stamp, now: int)
    requires start.Writable() && 0 <= now < Pow10(18)
    ensures Reached(start, now) <==> OnTheClock(start, now)
  {
    Powers();
    TailOrder(now % 1000000, start.local % 1000000, start.offset);
    DigitsOrder(now / 1000000, start.local / 1000000, 12,
                Tail(now % 1000000, 0), Tail(start.local % 1000000, start.offset));
  }

  // ---- stored promotions and their pages ------------------------------------

  datatype Row = Row(
    id: string, discount: int, scope: Scope, productIds: seq<string>, category: Option<string>,
    enabled: bool, startsAt: Stamp, endsAt: Stamp)

  function Decode(r: Row): Promotion {
    Promotion(r.id, r.discount, r.scope, r.productIds, r.category, r.enabled, r.startsAt.Instant(), r.endsAt.Instant())
  }

  predicate Clock(table: seq<Row>, now: int) {
    0 <= now < Pow10(18) && forall r :: r in table ==> r.startsAt.Writable()
  }

  /** What the index promises: over all its pages, the rows of the table that meet the query, in any order. */
  ghost predicate Answers(pages: seq<seq<Row>>, table: seq<Row>, now: int)
    requires Clock(table, now)
  {
    forall r :: r in Flat(pages) <==> r in table && r.enabled && Reached(r.startsAt, now)
  }

  function Decoded(rows: seq<Row>, now: int): seq<Promotion> {
    if rows == [] then []
    else
      var last := rows[|rows| - 1];
      Decoded(rows[..|rows| - 1], now) + (if last.endsAt.Instant() > now then [Decode(last)] else [])
  }

  lemma {:induction false} DecodedMembers(rows: seq<Row>, now: int, p: Promotion)
    ensures p in Decoded(rows, now) <==> exists r :: r in rows && r.endsAt.Instant() > now && p == Decode(r)
  {
    if rows == [] {
    } else {
      var front, last := rows[..|rows| - 1], rows[|rows| - 1];
      DecodedMembers(front, now, p);
      assert rows == front + [last];
      assert last in rows;
    }
  }

  function Replies(pages: seq<seq<Row>>): seq<Option<seq<Row>>> {
    seq(|pages|, i requires 0 <= i < |pages| => Some(pages[i]))
  }

  /** Reads the pages to the end; one failed read fails the whole. */
  method ActivePromotions(replies: seq<Option<seq<Row>>>, now: int) returns (promotions: Option<seq<Promotion>>)
    ensures promotions == None <==> None in replies
    ensures forall pages :: replies == Replies(pages) ==> promotions == Some(Decoded(Flat(pages), now))
  {
    var items: seq<Row> := [];
    var i := 0;
    ghost var read: seq<seq<Row>> := [];
    while i < |replies|
      invariant 0 <= i <= |replies| && |read| == i
      invariant forall j :: 0 <= j < i ==> replies[j] == Some(read[j])
      invariant items == Flat(read)
    {
      if replies[i] == None {
        return None;
      }
      read := read + [replies[i].value];
      assert read[..i] == read[..|read| - 1];
      items := items + replies[i].value;
      i := i + 1;
    }
    var kept: seq<Promotion> := [];
    var k := 0;
    while k < |items|
      invariant 0 <= k <= |items| && kept == Decoded(items[..k], now)
    {
      assert items[..k + 1][..k] == items[..k];
      if items[k].endsAt.Instant() > now {
        kept := kept + [Decode(items[k])];
      }
      k := k + 1;
    }
    assert items[..k] == items;
    promotions := Some(kept);
    forall pages | replies == Replies(pages) ensures pages == read {
      assert forall j :: 0 <= j < |replies| ==> Replies(pages)[j] == Some(pages[j]);
    }
  }

  // ---- one price on both sides ----------------------------------------------

  /** A stored product. */
  datatype Item = Item(id: string, name: Option<string>, price: real, category: Option<string>, active: Option<bool>)

  function Category(i: Item): string {
    if i.category == None then "uncategorised" else i.category.value
  }

  /** A quote for a stored product as the pricing rules demand it. */
  ghost predicate Offer(q: Quote, item: Item, ps: seq<Promotion>, now: int) {
    BestOffer(q, item.price, item.id, item.category, ps, now)
  }

  /** What both services ask the calculator for is the best offer. */
  lemma CategoryPriceIsOffer(item: Item, ps: seq<Promotion>, now: int)
    ensures Offer(EffectivePrice(item.price, item.id, Category(item), ps, now), item, ps, now)
  {
    EffectivePriceIsBestOffer(item.price, item.id, item.category, Category(item), ps, now);
  }

  /**
   * One price on both sides: what the storefront shows and what the checkout charges, each a best offer among the
   * promotions that it read through pages of its own, are the same quote.
   */
  lemma StorefrontAndCheckoutAgree(table: seq<Row>, shown: seq<seq<Row>>, charged: seq<seq<Row>>, item: Item, now: int,
                                   display: Quote, charge: Quote)
    requires Clock(table, now) && Answers(shown, table, now) && Answers(charged, table, now)
    requires Offer(display, item, Decoded(Flat(shown), now), now)
    requires Offer(charge, item, Decoded(Flat(charged), now), now)
    ensures display == charge
  {
    var ps, qs := Decoded(Flat(shown), now), Decoded(Flat(charged), now);
    forall p ensures p in ps <==> p in qs {
      DecodedMembers(Flat(shown), now, p);
      DecodedMembers(Flat(charged), now, p);
    }
    assert Offer(charge, item, ps, now) by {
      forall w | Strongest(w, qs, item.id, item.category, now) ensures Strongest(w, ps, item.id, item.category, now) {}
    }
    BestOfferIsUnique(display, charge, item.price, item.id, item.category, ps, now);
  }

  /** The stored row is for this product or its category, and runs now. */
  predicate RowCovers(r: Row, item: Item, now: int) {
    && r.enabled && r.startsAt.local - 60000000 * r.startsAt.offset <= now
    && now < r.endsAt.local - 60000000 * r.endsAt.offset
    && (|| (r.scope == ProductScope && item.id in r.productIds)
        || (r.scope == CategoryScope && r.category == Some(if item.category == None then "uncategorised"
                                                           else item.category.value)))
  }

  lemma RowIsRead(table: seq<Row>, pages: seq<seq<Row>>, item: Item, now: int, r: Row)
    requires Clock(table, now) && Answers(pages, table, now)
    ensures r in table && OnTheClock(r.startsAt, now) && RowCovers(r, item, now) ==>
              Decode(r) in Decoded(Flat(pages), now)
    ensures r in Flat(pages) && Covers(Decode(r), item.id, item.category, now) ==> r in table && RowCovers(r, item, now)
  {
    DecodedMembers(Flat(pages), now, Decode(r));
    if r in table { ReachedIff(r.startsAt, now); }
  }

  ghost predicate InPercent(table: seq<Row>) {
    forall r :: r in table ==> 0 <= r.discount <= 10000
  }

  lemma PercentagesAreRead(table: seq<Row>, pages: seq<seq<Row>>, now: int)
    requires Clock(table, now) && Answers(pages, table, now) && InPercent(table)
    ensures Percentages(Decoded(Flat(pages), now))
  {
    forall p | p in Decoded(Flat(pages), now) ensures 0 <= p.discount <= 10000 { DecodedMembers(Flat(pages), now, p); }
  }

  lemma OneBounds(item: Item, ps: seq<Promotion>, now: int, q: Quote, r: Row)
    requires Offer(q, item, ps, now) && item.price >= 0.0 && Percentages(ps)
    requires Decode(r) in ps && RowCovers(r, item, now)
    ensures q.effective <= Reduced(q.base, r.discount) && q.promotionId != None
  {
    assert Covers(Decode(r), item.id, item.category, now);
    BestOfferIsLowest(q, item.price, item.id, item.category, ps, now);
  }

  /** Every row that covers the product, and whose start the index has reached, bounds the price by its percentage. */
  lemma RowBoundsOffer(table: seq<Row>, pages: seq<seq<Row>>, item: Item, now: int, q: Quote, r: Row)
    requires Clock(table, now) && Answers(pages, table, now) && Offer(q, item, Decoded(Flat(pages), now), now)
    requires item.price >= 0.0 && InPercent(table)
    requires r in table && OnTheClock(r.startsAt, now) && RowCovers(r, item, now)
    ensures q.effective <= Reduced(q.base, r.discount) && q.promotionId != None
  {
    PercentagesAreRead(table, pages, now);
    RowIsRead(table, pages, item, now, r);
    OneBounds(item, Decoded(Flat(pages), now), now, q, r);
  }

  lemma SomeRow(table: seq<Row>, pages: seq<seq<Row>>, item: Item, now: int, w: Promotion) returns (r: Row)
    requires Clock(table, now) && Answers(pages, table, now)
    requires w in Decoded(Flat(pages), now) && Covers(w, item.id, item.category, now)
    ensures r in table && RowCovers(r, item, now) && w == Decode(r)
  {
    DecodedMembers(Flat(pages), now, w);
    r :| r in Flat(pages) && w == Decode(r);
    RowIsRead(table, pages, item, now, r);
  }

  /** A price that names a promotion is the price of a covering row of that id. */
  lemma NamedRowGivesThePrice(table: seq<Row>, pages: seq<seq<Row>>, item: Item, now: int, q: Quote) returns (r: Row)
    requires Clock(table, now) && Answers(pages, table, now) && Offer(q, item, Decoded(Flat(pages), now), now)
    requires item.price >= 0.0 && InPercent(table) && q.promotionId != None
    ensures r in table && RowCovers(r, item, now) && q.promotionId == Some(r.id)
    ensures q.effective == Reduced(q.base, r.discount)
  {
    PercentagesAreRead(table, pages, now);
    var w := BestOfferIsSomeones(q, item.price, item.id, item.category, Decoded(Flat(pages), now), now);
    r := SomeRow(table, pages, item, now, w);
  }

  // ---- does the index hide a promotion? -------------------------------------

  /** Every row of the table, as the pricing rules see it. */
  function All(table: seq<Row>): seq<Promotion> {
    seq(|table|, i requires 0 <= i < |table| => Decode(table[i]))
  }

  predicate Applies(r: Row, item: Item, now: int) {
    AppliesTo(Decode(r), item.id, Category(item), now)
  }

  ghost predicate Distinct(table: seq<Row>) {
    forall i, j :: 0 <= i < j < |table| ==> table[i].id != table[j].id
  }

  predicate Seen(r: Row, item: Item, now: int)
    requires r.startsAt.Writable() && 0 <= now < Pow10(18)
  {
    Applies(r, item, now) && Reached(r.startsAt, now)
  }

  /** Every applicable row that the index does not return is beaten by an applicable one that it does return. */
  ghost predicate Covered(table: seq<Row>, item: Item, now: int)
    requires Clock(table, now)
  {
    forall r :: r in table && Applies(r, item, now) && !Seen(r, item, now) ==>
      exists q :: q in table && Seen(q, item, now) && Weaker(Decode(r), Decode(q))
  }

  lemma AllMembers(table: seq<Row>, p: Promotion)
    ensures p in All(table) <==> exists r :: r in table && p == Decode(r)
  {
    if p in All(table) {
      var i :| 0 <= i < |table| && All(table)[i] == p;
      assert table[i] in table;
    }
    if r :| r in table && p == Decode(r) {
      var i :| 0 <= i < |table| && table[i] == r;
      assert All(table)[i] == p;
    }
  }

  /** The applicable promotions found through the index are those of the table whose start text was reached. */
  lemma FoundIff(table: seq<Row>, pages: seq<seq<Row>>, item: Item, now: int, p: Promotion)
    requires Clock(table, now) && Answers(pages, table, now)
    ensures p in Applicable(All(table), item.id, Category(item), now) <==>
            exists r :: r in table && Applies(r, item, now) && p == Decode(r)
    ensures p in Applicable(Decoded(Flat(pages), now), item.id, Category(item), now) <==>
            exists r :: r in table && Seen(r, item, now) && p == Decode(r)
  {
    AllMembers(table, p);
    DecodedMembers(Flat(pages), now, p);
    ApplicableMembers(All(table), item.id, Category(item), now, p);
    ApplicableMembers(Decoded(Flat(pages), now), item.id, Category(item), now, p);
  }

  predicate SameWinner(a: seq<Promotion>, b: seq<Promotion>) {
    (a == [] && b == []) || (a != [] && b != [] && Winner(a) == Winner(b))
  }

  lemma SameQuoteIff(item: Item, ps: seq<Promotion>, qs: seq<Promotion>, now: int)
    requires forall p, q :: (p in Applicable(ps, item.id, Category(item), now)
               && q in Applicable(qs, item.id, Category(item), now) && p.id == q.id) ==> p == q
    ensures EffectivePrice(item.price, item.id, Category(item), qs, now)
            == EffectivePrice(item.price, item.id, Category(item), ps, now)
            <==> SameWinner(Applicable(ps, item.id, Category(item), now), Applicable(qs, item.id, Category(item), now))
  {
    var a, b := Applicable(ps, item.id, Category(item), now), Applicable(qs, item.id, Category(item), now);
    if a != [] { WinnerIsStrongest(a); }
    if b != [] { WinnerIsStrongest(b); }
  }

  ghost predicate Beaten(a: seq<Promotion>, b: seq<Promotion>) {
    forall p :: p in a && p !in b ==> exists q :: q in b && Weaker(p, q)
  }

  lemma CoveredIff(table: seq<Row>, a: seq<Promotion>, b: seq<Promotion>, item: Item, now: int)
    requires Clock(table, now) && Distinct(table)
    requires forall p :: p in a <==> exists r :: r in table && Applies(r, item, now) && p == Decode(r)
    requires forall p :: p in b <==> exists r :: r in table && Seen(r, item, now) && p == Decode(r)
    ensures Covered(table, item, now) <==> Beaten(a, b)
    ensures forall p :: p in b ==> p in a
    ensures forall p, q :: p in a && q in a && p.id == q.id ==> p == q
  {
    forall r | r in table && Applies(r, item, now) ensures Decode(r) in b <==> Seen(r, item, now) {
      if Decode(r) in b {
        var q :| q in table && Seen(q, item, now) && Decode(r) == Decode(q);
        assert q.id == r.id;
      }
    }
    if Covered(table, item, now) {
      forall p | p in a && p !in b ensures exists q :: q in b && Weaker(p, q) {
        var r :| r in table && Applies(r, item, now) && p == Decode(r);
        var q :| q in table && Seen(q, item, now) && Weaker(Decode(r), Decode(q));
        assert Decode(q) in b;
      }
    }
    if Beaten(a, b) {
      forall r | r in table && Applies(r, item, now) && !Seen(r, item, now)
        ensures exists q :: q in table && Seen(q, item, now) && Weaker(Decode(r), Decode(q))
      {
        assert Decode(r) in a;
        var p :| p in b && Weaker(Decode(r), p);
      }
    }
  }

  /** Leaving out some promotions keeps the winner exactly when none that is left out goes unbeaten. */
  lemma WinnersAgreeIff(a: seq<Promotion>, b: seq<Promotion>)
    requires forall p :: p in b ==> p in a
    requires forall p, q :: p in a && q in a && p.id == q.id ==> p == q
    ensures Beaten(a, b) <==> SameWinner(a, b)
  {
    assert b != [] ==> b[0] in a;
    if a != [] {
      WinnerIsStrongest(a);
      if b != [] { WinnerIsStrongest(b); }
      if Beaten(a, b) {
        assert Winner(a) in b;
        StringLessOrders(Winner(a).id, Winner(b).id);
      } else if b != [] && Winner(a) == Winner(b) {
        var p :| p in a && p !in b && forall q :: q in b ==> !Weaker(p, q);
        StringLessOrders(Winner(a).id, p.id);
      }
    }
  }

  /** Pricing through the index equals pricing against the whole table exactly when the index hides no winner. */
  lemma PrefilterKeepsQuoteIff(table: seq<Row>, pages: seq<seq<Row>>, item: Item, now: int)
    requires Clock(table, now) && Distinct(table) && Answers(pages, table, now)
    ensures EffectivePrice(item.price, item.id, Category(item), Decoded(Flat(pages), now), now)
            == EffectivePrice(item.price, item.id, Category(item), All(table), now)
            <==> Covered(table, item, now)
  {
    var a := Applicable(All(table), item.id, Category(item), now);
    var b := Applicable(Decoded(Flat(pages), now), item.id, Category(item), now);
    forall p {
      FoundIff(table, pages, item, now, p);
    }
    CoveredIff(table, a, b, item, now);
    WinnersAgreeIff(a, b);
    SameQuoteIff(item, All(table), Decoded(Flat(pages), now), now);
  }

  /** With every start stored at UTC or west of it, pricing through the index is pricing against the whole table. */
  lemma WesternStartsPriceAlike(table: seq<Row>, pages: seq<seq<Row>>, item: Item, now: int)
    requires Clock(table, now) && Answers(pages, table, now)
    requires forall r :: r in table && r.enabled ==> r.startsAt.offset <= 0
    ensures EffectivePrice(item.price, item.id, Category(item), Decoded(Flat(pages), now), now)
            == EffectivePrice(item.price, item.id, Category(item), All(table), now)
  {
    var found := Decoded(Flat(pages), now);
    forall p | AppliesTo(p, item.id, Category(item), now) ensures p in All(table) <==> p in found {
      AllMembers(table, p);
      DecodedMembers(Flat(pages), now, p);
      if p in All(table) {
        var r :| r in table && p == Decode(r);
        ReachedIff(r.startsAt, now);
        assert r in Flat(pages);
      }
    }
    QuoteDependsOnApplicableSet(item.price, item.id, Category(item), All(table), found, now);
  }

  /** A promotion that some product could get at some time. */
  predicate Effective(r: Row) {
    && r.enabled && r.startsAt.Instant() < r.endsAt.Instant()
    && match r.scope
       case ProductScope => r.productIds != []
       case CategoryScope => r.category != None
       case UnknownScope => false
  }

  /** At the moment of its start, an effective promotion stored east of UTC is hidden from a product that it is for. */
  lemma EasternStartIsHidden(r: Row) returns (item: Item)
    requires r.startsAt.Writable() && 0 <= r.startsAt.Instant() < Pow10(18)
    requires Effective(r) && r.startsAt.offset > 0
    ensures Applies(r, item, r.startsAt.Instant()) && !Seen(r, item, r.startsAt.Instant())
  {
    item := if r.scope == ProductScope then Item(r.productIds[0], None, 1.0, None, None)
            else Item("p", None, 1.0, r.category, None);
    ReachedIff(r.startsAt, r.startsAt.Instant());
  }

  /** Any other is seen whenever it applies. */
  lemma OtherwiseSeen(r: Row, item: Item, now: int)
    requires r.startsAt.Writable() && 0 <= now < Pow10(18) && !(Effective(r) && r.startsAt.offset > 0)
    ensures Applies(r, item, now) ==> Seen(r, item, now)
  {
    ReachedIff(r.startsAt, now);
    assert Applies(r, item, now) ==> Effective(r);
  }

  /**
   * One promotion on its own is priced alike through the index and from the table, for every product at every
   * time, unless it is effective and its start was stored with an offset east of UTC.
   */
  lemma IndexIsFaithfulIff(r: Row)
    requires r.startsAt.Writable() && 0 <= r.startsAt.Instant() < Pow10(18)
    ensures (forall item: Item, now: int :: 0 <= now < Pow10(18) ==> Covered([r], item, now))
            <==> !(Effective(r) && r.startsAt.offset > 0)
  {
    if Effective(r) && r.startsAt.offset > 0 {
      var item := EasternStartIsHidden(r);
      assert r in [r] && !Covered([r], item, r.startsAt.Instant());
    } else {
      forall item: Item, now: int | 0 <= now < Pow10(18) ensures Covered([r], item, now) {
        OtherwiseSeen(r, item, now);
      }
    }
  }
}
