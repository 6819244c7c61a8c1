/** Money and promotion rules shared by the storefront and the checkout. Money results are whole pence. */
module Pricing {
  import opened Common

  // ---- rounding -------------------------------------------------------------

  function Pounds(pence: int): real {
    pence as real / 100.0
  }

  /** Two decimal places, half up: away from zero on a tie. */
  function Money(v: real): int {
    if v >= 0.0 then (v * 100.0 + 0.5).Floor else -((-v * 100.0 + 0.5).Floor)
  }

  lemma MoneyIsNearest(v: real)
    ensures v >= 0.0 ==> Money(v) as real - 0.5 <= v * 100.0 < Money(v) as real + 0.5
    ensures v < 0.0 ==> Money(v) as real - 0.5 < v * 100.0 <= Money(v) as real + 0.5
  {
    var f := if v >= 0.0 then v * 100.0 + 0.5 else -v * 100.0 + 0.5;
    assert f.Floor as real <= f < f.Floor as real + 1.0;
  }

  /** Rounding whole pence changes nothing. */
  lemma MoneyKeepsPence(p: int)
    ensures Money(Pounds(p)) == p
  {
    MoneyIsNearest(Pounds(p));
    assert Pounds(p) * 100.0 == p as real;
  }

  lemma MoneyIsMonotone(a: real, b: real)
    requires a <= b
    ensures Money(a) <= Money(b)
  {
    MoneyIsNearest(a);
    MoneyIsNearest(b);
    assert Money(a) > Money(b) ==> Money(a) as real >= Money(b) as real + 1.0;
  }

  // ---- the discounted price -------------------------------------------------

  /** The effective price of a base of whole pence under a discount given in hundredths of a percent. */
  function Discounted(base: int, discount: int): int {
    Money(Pounds(base) * (1.0 - discount as real / 10000.0))
  }

  lemma ProductOfReals(a: int, b: int)
    ensures a as real * b as real == (a * b) as real
  {
  }

  lemma DiscountedExactly(base: int, discount: int)
    requires base >= 0 && 0 <= discount <= 10000
    ensures Discounted(base, discount) == (base * (10000 - discount) + 5000) / 10000
  {
    var v := Pounds(base) * (1.0 - discount as real / 10000.0);
    var n := base * (10000 - discount);
    assert v * 10000.0 * 100.0 == n as real by {
      assert Pounds(base) * 100.0 == base as real;
      assert (1.0 - discount as real / 10000.0) * 10000.0 == (10000 - discount) as real;
      ProductOfReals(base, 10000 - discount);
    }
    assert n >= 0;
    MoneyIsNearest(v);
    var m := (n + 5000) / 10000;
    assert m * 10000 <= n + 5000 < (m + 1) * 10000;
    assert m as real * 10000.0 <= n as real + 5000.0 < (m as real + 1.0) * 10000.0;
    assert Money(v) > m ==> Money(v) as real >= m as real + 1.0;
    assert Money(v) < m ==> Money(v) as real <= m as real - 1.0;
  }

  lemma DeeperDiscountIsCheaper(base: int, d: int, e: int)
    requires base >= 0 && d <= e
    ensures Discounted(base, e) <= Discounted(base, d)
  {
    assert Pounds(base) >= 0.0;
    assert 1.0 - e as real / 10000.0 <= 1.0 - d as real / 10000.0;
    assert Pounds(base) * (1.0 - e as real / 10000.0) <= Pounds(base) * (1.0 - d as real / 10000.0);
    MoneyIsMonotone(Pounds(base) * (1.0 - e as real / 10000.0), Pounds(base) * (1.0 - d as real / 10000.0));
  }

  lemma DiscountedInRange(base: int, d: int)
    requires base >= 0 && 0 <= d <= 10000
    ensures 0 <= Discounted(base, d) <= base
  {
    DeeperDiscountIsCheaper(base, 0, d);
    DeeperDiscountIsCheaper(base, d, 10000);
    assert Pounds(base) * (1.0 - 0 as real / 10000.0) == Pounds(base);
    assert Pounds(base) * (1.0 - 10000 as real / 10000.0) == 0.0;
    MoneyKeepsPence(base);
  }

  // ---- promotions -----------------------------------------------------------

  datatype Scope = ProductScope | CategoryScope | UnknownScope

  /** `discount` is in hundredths of a percent; times are instants. */
  datatype Promotion = Promotion(
    id: string, discount: int, scope: Scope, productIds: seq<string>, category: Option<string>,
    enabled: bool, startsAt: int, endsAt: int)

  predicate AppliesTo(p: Promotion, productId: string, category: string, now: int) {
    && p.enabled && p.startsAt <= now < p.endsAt
    && match p.scope
       case ProductScope => productId in p.productIds
       case CategoryScope => p.category == Some(category)
       case UnknownScope => false
  }

  /** Character by character, a proper prefix first. */
  predicate StringLess(a: string, b: string) {
    b != [] && (a == [] || a[0] < b[0] || (a[0] == b[0] && StringLess(a[1..], b[1..])))
  }

  lemma {:induction false} StringLessOrders(a: string, b: string)
    ensures StringLess(a, b) || StringLess(b, a) || a == b
    ensures !(StringLess(a, b) && StringLess(b, a)) && !StringLess(a, a)
  {
    if a == [] {
    } else {
      StringLessOrders(a[1..], a[1..]);
      if b != [] {
        StringLessOrders(a[1..], b[1..]);
        assert a == [a[0]] + a[1..] && b == [b[0]] + b[1..];
      }
    }
  }

  lemma {:induction false} StringLessTransitive(a: string, b: string, c: string)
    requires StringLess(a, b) && StringLess(b, c)
    ensures StringLess(a, c)
  {
    if a != [] && a[0] == b[0] == c[0] { StringLessTransitive(a[1..], b[1..], c[1..]); }
  }

  /** The order by which the winner is chosen: percentage, then id. */
  predicate Weaker(p: Promotion, q: Promotion) {
    p.discount < q.discount || (p.discount == q.discount && StringLess(p.id, q.id))
  }

  lemma WeakerTransitive(p: Promotion, q: Promotion, r: Promotion)
    ensures Weaker(p, q) && Weaker(q, r) ==> Weaker(p, r)
    ensures !Weaker(p, q) && !Weaker(q, r) ==> !Weaker(p, r)
  {
    StringLessOrders(p.id, q.id);
    StringLessOrders(q.id, r.id);
    StringLessOrders(p.id, r.id);
    if StringLess(p.id, q.id) && StringLess(q.id, r.id) { StringLessTransitive(p.id, q.id, r.id); }
    if StringLess(r.id, q.id) && StringLess(q.id, p.id) { StringLessTransitive(r.id, q.id, p.id); }
  }

  /** The first of the strongest promotions. */
  function Winner(ps: seq<Promotion>): (best: Promotion)
    requires ps != []
  {
    if |ps| == 1 then ps[0]
    else
      var w := Winner(ps[..|ps| - 1]);
      if Weaker(w, ps[|ps| - 1]) then ps[|ps| - 1] else w
  }

  lemma {:induction false} WinnerIsStrongest(ps: seq<Promotion>)
    requires ps != []
    ensures Winner(ps) in ps && forall p :: p in ps ==> !Weaker(Winner(ps), p)
  {
    var last := ps[|ps| - 1];
    if |ps| > 1 {
      var front := ps[..|ps| - 1];
      WinnerIsStrongest(front);
      forall p | p in ps ensures !Weaker(Winner(ps), p) {
        StringLessOrders(p.id, p.id);
        if p in front { WeakerTransitive(Winner(ps), Winner(front), p); StringLessOrders(last.id, Winner(front).id); }
      }
    } else {
      StringLessOrders(last.id, last.id);
    }
  }

  datatype Quote = Quote(base: int, effective: int, discount: int, promotionId: Option<string>)

  function Applicable(ps: seq<Promotion>, productId: string, category: string, now: int): seq<Promotion> {
    if ps == [] then []
    else
      var last := ps[|ps| - 1];
      Applicable(ps[..|ps| - 1], productId, category, now)
      + (if AppliesTo(last, productId, category, now) then [last] else [])
  }

  function EffectivePrice(price: real, productId: string, category: string, ps: seq<Promotion>, now: int): Quote {
    var applicable := Applicable(ps, productId, category, now);
    var base := Money(price);
    if applicable == [] then Quote(base, base, 0, None)
    else
      var w := Winner(applicable);
      var effective := Discounted(base, w.discount);
      Quote(base, effective, Money(Pounds(base) - Pounds(effective)), Some(w.id))
  }

  lemma {:induction false} ApplicableMembers(ps: seq<Promotion>, productId: string, category: string, now: int,
          p: Promotion)
    ensures p in Applicable(ps, productId, category, now) <==> p in ps && AppliesTo(p, productId, category, now)
  {
    if ps == [] {
    } else {
      ApplicableMembers(ps[..|ps| - 1], productId, category, now, p);
      assert ps == ps[..|ps| - 1] + [ps[|ps| - 1]];
    }
  }

  /** No applicable promotion would give a lower price than the chosen one, and the price stays within [0, base]. */
  lemma ChosenPromotionIsBest(price: real, productId: string, category: string, ps: seq<Promotion>, now: int)
    requires price >= 0.0 && forall p :: p in ps ==> 0 <= p.discount <= 10000
    ensures var q := EffectivePrice(price, productId, category, ps, now);
            && q.base == Money(price) && 0 <= q.effective <= q.base && q.discount == q.base - q.effective
            && (forall p :: p in ps && AppliesTo(p, productId, category, now) ==>
                  q.effective <= Discounted(q.base, p.discount))
            && (q.promotionId == None <==> forall p :: p in ps ==> !AppliesTo(p, productId, category, now))
  {
    var q := EffectivePrice(price, productId, category, ps, now);
    var applicable := Applicable(ps, productId, category, now);
    forall p ensures p in applicable <==> p in ps && AppliesTo(p, productId, category, now) {
      ApplicableMembers(ps, productId, category, now, p);
    }
    MoneyIsMonotone(0.0, price);
    MoneyKeepsPence(0);
    if applicable != [] {
      var w := Winner(applicable);
      WinnerIsStrongest(applicable);
      DiscountedInRange(q.base, w.discount);
      assert Pounds(q.base) - Pounds(q.effective) == Pounds(q.base - q.effective);
      MoneyKeepsPence(q.base - q.effective);
      forall p | p in applicable ensures q.effective <= Discounted(q.base, p.discount) {
        DeeperDiscountIsCheaper(q.base, p.discount, w.discount);
      }
    } else {
      assert forall p :: p in ps ==> p !in applicable ==> !AppliesTo(p, productId, category, now);
    }
  }

  // ---- what a quote has to be -----------------------------------------------

  /** The promotion is running, and made for this product or for its category; without one it is "uncategorised". */
  predicate Covers(p: Promotion, productId: string, stored: Option<string>, now: int) {
    && p.enabled && p.startsAt <= now < p.endsAt
    && (|| (p.scope == ProductScope && productId in p.productIds)
        || (p.scope == CategoryScope && p.category == Some(if stored == None then "uncategorised" else stored.value)))
  }

  /** No other promotion for the product is deeper, nor as deep with a later id. */
  ghost predicate Strongest(w: Promotion, ps: seq<Promotion>, productId: string, stored: Option<string>, now: int) {
    && w in ps && Covers(w, productId, stored, now)
    && forall p :: p in ps && Covers(p, productId, stored, now) ==>
         p.discount < w.discount || (p.discount == w.discount && (p.id == w.id || StringLess(p.id, w.id)))
  }

  /** The rounded price, less the discount of the strongest promotion for the product, which is named; or as it is. */
  ghost predicate BestOffer(q: Quote, price: real, productId: string, stored: Option<string>, ps: seq<Promotion>,
                            now: int) {
    && q.base == Money(price) && q.discount == q.base - q.effective
    && if q.promotionId == None
       then q.effective == q.base && forall p :: p in ps ==> !Covers(p, productId, stored, now)
       else exists w :: Strongest(w, ps, productId, stored, now) && q.promotionId == Some(w.id)
                        && q.effective == Discounted(q.base, w.discount)
  }

  /** The calculator's answer is the best offer. */
  lemma EffectivePriceIsBestOffer(price: real, productId: string, stored: Option<string>, category: string,
                                  ps: seq<Promotion>, now: int)
    requires category == if stored == None then "uncategorised" else stored.value
    ensures BestOffer(EffectivePrice(price, productId, category, ps, now), price, productId, stored, ps, now)
  {
    var applicable := Applicable(ps, productId, category, now);
    var q := EffectivePrice(price, productId, category, ps, now);
    forall p ensures p in applicable <==> p in ps && Covers(p, productId, stored, now) {
      ApplicableMembers(ps, productId, category, now, p);
    }
    assert Pounds(q.base) - Pounds(q.effective) == Pounds(q.base - q.effective);
    MoneyKeepsPence(q.base - q.effective);
    if applicable != [] {
      var w := Winner(applicable);
      WinnerIsStrongest(applicable);
      forall p | p in applicable
        ensures p.discount < w.discount || (p.discount == w.discount && (p.id == w.id || StringLess(p.id, w.id)))
      {
        StringLessOrders(p.id, w.id);
      }
      assert Strongest(w, ps, productId, stored, now);
    } else {
      assert forall p :: p in ps && Covers(p, productId, stored, now) ==> p in applicable;
    }
  }

  lemma StrongestAlike(v: Promotion, w: Promotion, ps: seq<Promotion>, productId: string, stored: Option<string>,
                       now: int)
    requires Strongest(v, ps, productId, stored, now) && Strongest(w, ps, productId, stored, now)
    ensures v.discount == w.discount && v.id == w.id
  {
    StringLessOrders(v.id, w.id);
  }

  /** There is only one best offer, so whoever quotes one quotes the same. */
  lemma BestOfferIsUnique(q: Quote, r: Quote, price: real, productId: string, stored: Option<string>,
                          ps: seq<Promotion>, now: int)
    requires BestOffer(q, price, productId, stored, ps, now) && BestOffer(r, price, productId, stored, ps, now)
    ensures q == r
  {
    if q.promotionId != None && r.promotionId != None {
      var v :| Strongest(v, ps, productId, stored, now) && q.promotionId == Some(v.id)
               && q.effective == Discounted(q.base, v.discount);
      var w :| Strongest(w, ps, productId, stored, now) && r.promotionId == Some(w.id)
               && r.effective == Discounted(r.base, w.discount);
      StrongestAlike(v, w, ps, productId, stored, now);
    }
  }

  /** In whole pence, at `discount` hundredths of a percent off. */
  function Reduced(base: int, discount: int): int {
    (base * (10000 - discount) + 5000) / 10000
  }

  ghost predicate Percentages(ps: seq<Promotion>) {
    forall p :: p in ps ==> 0 <= p.discount <= 10000
  }

  /** A best offer lies in [0, base], and no promotion for the product would give less. */
  lemma BestOfferIsLowest(q: Quote, price: real, productId: string, stored: Option<string>, ps: seq<Promotion>,
                          now: int)
    requires BestOffer(q, price, productId, stored, ps, now)
    requires price >= 0.0 && Percentages(ps)
    ensures 0 <= q.effective <= q.base
    ensures forall p :: p in ps && Covers(p, productId, stored, now) ==> q.effective <= Reduced(q.base, p.discount)
  {
    MoneyIsMonotone(0.0, price);
    MoneyKeepsPence(0);
    if q.promotionId != None {
      var w :| Strongest(w, ps, productId, stored, now) && q.effective == Discounted(q.base, w.discount);
      DiscountedInRange(q.base, w.discount);
      forall p | p in ps && Covers(p, productId, stored, now)
        ensures q.effective <= Reduced(q.base, p.discount)
      {
        DeeperDiscountIsCheaper(q.base, p.discount, w.discount);
        DiscountedExactly(q.base, p.discount);
      }
    }
  }

  /** A best offer that names a promotion is that promotion's price. */
  lemma BestOfferIsSomeones(q: Quote, price: real, productId: string, stored: Option<string>, ps: seq<Promotion>,
                            now: int)
    returns (w: Promotion)
    requires BestOffer(q, price, productId, stored, ps, now) && q.promotionId != None
    requires price >= 0.0 && Percentages(ps)
    ensures w in ps && Covers(w, productId, stored, now) && q.promotionId == Some(w.id)
    ensures q.effective == Reduced(q.base, w.discount)
  {
    w :| Strongest(w, ps, productId, stored, now) && q.promotionId == Some(w.id)
         && q.effective == Discounted(q.base, w.discount);
    MoneyIsMonotone(0.0, price);
    MoneyKeepsPence(0);
    DiscountedExactly(q.base, w.discount);
  }

  /**
   * Only which promotions are applicable matters, not how they are listed: not their order, nor repeats, nor equal
   * ids.
   */
  lemma QuoteDependsOnApplicableSet(price: real, productId: string, category: string,
                                    ps: seq<Promotion>, qs: seq<Promotion>, now: int)
    requires forall p :: AppliesTo(p, productId, category, now) ==> (p in ps <==> p in qs)
    ensures EffectivePrice(price, productId, category, ps, now) == EffectivePrice(price, productId, category, qs, now)
  {
    var a, b := Applicable(ps, productId, category, now), Applicable(qs, productId, category, now);
    forall p ensures p in a <==> p in b {
      ApplicableMembers(ps, productId, category, now, p);
      ApplicableMembers(qs, productId, category, now, p);
    }
    assert a != [] ==> a[0] in b;
    assert b != [] ==> b[0] in a;
    if a != [] {
      WinnerIsStrongest(a);
      WinnerIsStrongest(b);
      StringLessOrders(Winner(a).id, Winner(b).id);
    }
  }
}
