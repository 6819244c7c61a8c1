/** The read-through cache that every product task keeps for itself. */
module ProductCache {
  import opened Common
  import Pricing
  import PromotionIndex

  type Item = PromotionIndex.Item
  type Table = map<string, Item>

  // ---- keys -----------------------------------------------------------------

  function Decimal(n: nat): (s: string)
    ensures s != [] && ':' !in s
  {
    (if n < 10 then "" else Decimal(n / 10)) + [PromotionIndex.Digit(n % 10)]
  }

  datatype Key = ItemKey(id: string) | ListKey(category: Option<string>, limit: nat)
  {
    function Text(): string {
      match this
      case ItemKey(id) => "item:" + id
      case ListKey(category, limit) =>
        "list:" + (if category == None then "*" else category.value) + ":" + Decimal(limit)
    }
  }

  lemma {:induction false} DecimalInjective(m: nat, n: nat)
    requires Decimal(m) == Decimal(n)
    ensures m == n
  {
    var s, t := Decimal(m), Decimal(n);
    assert s[|s| - 1] == PromotionIndex.Digit(m % 10) && t[|t| - 1] == PromotionIndex.Digit(n % 10);
    assert s[..|s| - 1] == (if m < 10 then "" else Decimal(m / 10));
    assert t[..|t| - 1] == (if n < 10 then "" else Decimal(n / 10));
    if m >= 10 && n >= 10 { DecimalInjective(m / 10, n / 10); }
  }

  function Filter(k: Key): string
    requires k.ListKey?
  {
    if k.category == None then "*" else k.category.value
  }

  predicate Star(k: Key)
    requires k.ListKey?
  {
    Filter(k) == "*"
  }

  /** Different reads share an entry in one case only: the whole catalogue, and the category named "*". */
  lemma KeysCollideIff(a: Key, b: Key)
    ensures a.Text() == b.Text() <==> a == b || (a.ListKey? && b.ListKey? && a.limit == b.limit && Star(a) && Star(b))
  {
    if a.Text() == b.Text() {
      var s := a.Text();
      assert s[0] == (if a.ItemKey? then 'i' else 'l') && s[0] == (if b.ItemKey? then 'i' else 'l');
      if a.ItemKey? {
        assert s[5..] == a.id && s[5..] == b.id;
      } else {
        LastMarkSplits(':', "list:" + Filter(a), "list:" + Filter(b), Decimal(a.limit), Decimal(b.limit));
        assert ("list:" + Filter(a))[5..] == Filter(a) && ("list:" + Filter(b))[5..] == Filter(b);
        DecimalInjective(a.limit, b.limit);
      }
    }
  }

  // ---- the cache object -----------------------------------------------------

  datatype Timed<V> = Timed(value: V, expires: int)

  type Entries<V> = map<string, Timed<V>>

  function Lookup<V>(es: Entries<V>, key: string, now: int): Option<V> {
    if key in es && now < es[key].expires then Some(es[key].value) else None
  }

  /** Storing may push out other entries when the cache is full. */
  function Stored<V>(es: Entries<V>, key: string, value: V, now: int, ttl: int, evicted: set<string>): Entries<V> {
    (es - evicted)[key := Timed(value, now + ttl)]
  }

  class Cache<V> {
    const ttl: int
    var entries: Entries<V>
    var hits: nat
    var misses: nat

    constructor (ttl: int)
      ensures this.ttl == ttl && entries == map[] && hits == 0 && misses == 0
    {
      this.ttl := ttl;
      entries, hits, misses := map[], 0, 0;
    }

    method Get(key: string, now: int) returns (value: Option<V>)
      modifies this`hits, this`misses
      ensures value == Lookup(entries, key, now)
      ensures hits == old(hits) + (if value == None then 0 else 1)
      ensures misses == old(misses) + (if value == None then 1 else 0)
    {
      if key !in entries || entries[key].expires <= now {
        misses := misses + 1;
        return None;
      }
      hits := hits + 1;
      value := Some(entries[key].value);
    }

    method Set(key: string, value: V, now: int, evicted: set<string>)
      modifies this`entries
      ensures entries == Stored(old(entries), key, value, now, ttl, evicted)
    {
      entries := entries - evicted;
      entries := entries[key := Timed(value, now + ttl)];
    }

    method Invalidate(key: string)
      modifies this`entries
      ensures entries == old(entries) - {key}
    {
      entries := entries - {key};
    }

    method Clear()
      modifies this`entries
      ensures entries == map[]
    {
      entries := map[];
    }
  }

  // ---- the handlers of one task ---------------------------------------------

  datatype Header = Hit | Miss

  /** A listing returns stored products of the category, at most `limit`, in an order of the table's choosing. */
  predicate Listing(found: seq<Item>, t: Table, category: Option<string>, limit: nat) {
    && |found| <= limit
    && forall i :: i in found ==> i.id in t && t[i.id] == i && (category != None ==>
          PromotionIndex.Category(i) == category.value)
  }

  function Priced(i: Item, promotions: seq<Pricing.Promotion>, now: int): Pricing.Quote {
    Pricing.EffectivePrice(i.price, i.id, PromotionIndex.Category(i), promotions, now)
  }

  function AllPriced(items: seq<Item>, promotions: seq<Pricing.Promotion>, now: int): seq<Pricing.Quote> {
    seq(|items|, k requires 0 <= k < |items| => Priced(items[k], promotions, now))
  }

  /** What a handler must answer: the best offer for each product, in the order of the products. */
  ghost predicate Offers(quotes: seq<Pricing.Quote>, items: seq<Item>, promotions: seq<Pricing.Promotion>, now: int) {
    && |quotes| == |items|
    && forall i :: 0 <= i < |items| ==> PromotionIndex.Offer(quotes[i], items[i], promotions, now)
  }

  lemma PricedIsOffer(i: Item, promotions: seq<Pricing.Promotion>, now: int)
    ensures PromotionIndex.Offer(Priced(i, promotions, now), i, promotions, now)
  {
    PromotionIndex.CategoryPriceIsOffer(i, promotions, now);
  }

  lemma AllPricedAreOffers(items: seq<Item>, promotions: seq<Pricing.Promotion>, now: int)
    ensures Offers(AllPriced(items, promotions, now), items, promotions, now)
  {
    forall i | 0 <= i < |items|
      ensures PromotionIndex.Offer(AllPriced(items, promotions, now)[i], items[i], promotions, now)
    {
      PricedIsOffer(items[i], promotions, now);
    }
  }

  /** What a product read does to its task's cache. */
  function ProductRead(es: Entries<seq<Item>>, t: Table, id: string, now: int, ttl: int,
                       evicted: set<string>): Entries<seq<Item>> {
    if Lookup(es, ItemKey(id).Text(), now) != None || id !in t then es
    else Stored(es, ItemKey(id).Text(), [t[id]], now, ttl, evicted)
  }

  function ListRead(es: Entries<seq<Item>>, key: Key, found: seq<Item>, now: int, ttl: int,
                    evicted: set<string>): Entries<seq<Item>> {
    if Lookup(es, key.Text(), now) != None then es else Stored(es, key.Text(), found, now, ttl, evicted)
  }

  class ProductTask {
    const cache: Cache<seq<Item>>

    constructor (ttl: int)
      ensures Valid() && fresh(cache) && cache.ttl == ttl && cache.entries == map[]
    {
      cache := new Cache(ttl);
    }

    /** What is held under a product's key is that product. */
    ghost predicate Valid()
      reads this, cache
    {
      forall id, key :: key == ItemKey(id).Text() && key in cache.entries ==>
        |cache.entries[key].value| == 1 && cache.entries[key].value[0].id == id
    }

    /** The product may be a cached copy; its price never is: it is worked out from the promotions of this moment. */
    method GetProduct(id: string, table: Table, promotions: seq<Pricing.Promotion>, now: int, evicted: set<string>)
      returns (quote: Option<Pricing.Quote>, header: Header)
      requires Valid() && forall k :: k in table ==> table[k].id == k
      modifies cache
      ensures Valid()
      ensures var held := Lookup(old(cache.entries), ItemKey(id).Text(), now);
              && (header == Hit <==> held != None)
              && (held != None ==> quote == Some(Priced(held.value[0], promotions, now)))
              && (held == None ==> quote == if id in table then Some(Priced(table[id], promotions, now)) else None)
      ensures var held := Lookup(old(cache.entries), ItemKey(id).Text(), now);
              && (quote == None <==> held == None && id !in table)
              && (quote != None ==>
                    var item := if held != None then held.value[0] else table[id];
                    item.id == id && PromotionIndex.Offer(quote.value, item, promotions, now))
      ensures cache.entries == ProductRead(old(cache.entries), table, id, now, cache.ttl, evicted)
      ensures cache.hits == old(cache.hits) + (if header == Hit then 1 else 0)
      ensures cache.misses == old(cache.misses) + (if header == Miss then 1 else 0)
    {
      var key := ItemKey(id).Text();
      forall other {
        KeysCollideIff(ItemKey(id), ItemKey(other));
      }
      var cached := cache.Get(key, now);
      if cached != None {
        PricedIsOffer(cached.value[0], promotions, now);
        return Some(Priced(cached.value[0], promotions, now)), Hit;
      }
      if id !in table {
        return None, Miss;
      }
      cache.Set(key, [table[id]], now, evicted);
      PricedIsOffer(table[id], promotions, now);
      return Some(Priced(table[id], promotions, now)), Miss;
    }

    method ListProducts(key: Key, found: seq<Item>, promotions: seq<Pricing.Promotion>, now: int, evicted: set<string>)
      returns (quotes: seq<Pricing.Quote>, header: Header)
      requires Valid() && key.ListKey?
      modifies cache
      ensures Valid()
      ensures var held := Lookup(old(cache.entries), key.Text(), now);
              && (header == Hit <==> held != None)
              && quotes == AllPriced(if held != None then held.value else found, promotions, now)
              && Offers(quotes, if held != None then held.value else found, promotions, now)
      ensures cache.entries == ListRead(old(cache.entries), key, found, now, cache.ttl, evicted)
      ensures cache.hits == old(cache.hits) + (if header == Hit then 1 else 0)
      ensures cache.misses == old(cache.misses) + (if header == Miss then 1 else 0)
    {
      forall other {
        KeysCollideIff(key, ItemKey(other));
      }
      var cached := cache.Get(key.Text(), now);
      AllPricedAreOffers(if cached != None then cached.value else found, promotions, now);
      if cached != None {
        return AllPriced(cached.value, promotions, now), Hit;
      }
      cache.Set(key.Text(), found, now, evicted);
      return AllPriced(found, promotions, now), Miss;
    }

    method Invalidate(id: string)
      modifies cache
      ensures Valid() && cache.entries == map[] && cache.hits == old(cache.hits) && cache.misses == old(cache.misses)
    {
      cache.Invalidate(ItemKey(id).Text());
      cache.Clear();
    }
  }
}
