/** The admin console's order-statistics roll-up: one pass over the fetched orders that
    accumulates totals, trailing-window figures and status counters, fills the per-store and
    per-product dictionaries, and ends with two top-10 leaderboards by revenue.

    Identifiers and names that JavaScript treats as falsy (`null`, `undefined`, `''`) are
    written as the empty string; money and quantities are integers. */
module OrderStatistics {
  import opened Wrappers
  import opened Labels
  import Seqs
  import Leaderboard

  /** Length of each leaderboard. */
  const TopCount: nat := 10

  const Pending: string := "pending"
  const Processing: string := "processing"
  const Delivering: string := "delivering"
  const Completed: string := "completed"
  const Cancelled: string := "cancelled"

  predicate KnownStatus(status: string) {
    status == Pending || status == Processing || status == Delivering
    || status == Completed || status == Cancelled
  }

  /** `item.products`: the product a line item refers to, with its store (`stores.name`). */
  datatype ProductRef = ProductRef(id: string, name: string, storeId: string, storeName: string)

  /** A row of `order_items`; `product` is absent when the joined product is gone. */
  datatype LineItem = LineItem(quantity: int, price: int, product: Option<ProductRef>)

  /** A row of `orders`; `items` is absent when `order_items` is missing or not an array. */
  datatype Order = Order(totalAmount: Option<int>, status: string, createdAt: int, items: Option<seq<LineItem>>)

  /** The order-derived fields of the `Statistics` record. */
  datatype Summary = Summary(
    totalRevenue: int, totalOrders: nat,
    pendingOrders: nat, processingOrders: nat, deliveringOrders: nat,
    completedOrders: nat, cancelledOrders: nat,
    todayRevenue: int, todayOrders: nat,
    weekRevenue: int, weekOrders: nat,
    monthRevenue: int, monthOrders: nat)

  datatype TopStore = TopStore(storeId: string, storeName: string, revenue: int, orders: nat)

  datatype TopProduct = TopProduct(name: string, quantity: int, revenue: int)

  // ---------------------------------------------------------------------------
  // One line item

  /** `item.products?.store_id`. */
  function StoreIdOf(item: LineItem): string {
    match item.product
    case Some(p) => p.storeId
    case None => ""
  }

  /** `item.products?.stores?.name || "Noma'lum do'kon"`. */
  function StoreNameOf(item: LineItem): string {
    match item.product
    case Some(p) => if p.storeName != "" then p.storeName else UnknownStore
    case None => UnknownStore
  }

  /** `item.products?.id`. */
  function ProductIdOf(item: LineItem): string {
    match item.product
    case Some(p) => p.id
    case None => ""
  }

  /** `item.products?.name || "Noma'lum mahsulot"`. */
  function ProductNameOf(item: LineItem): string {
    match item.product
    case Some(p) => if p.name != "" then p.name else UnknownProduct
    case None => UnknownProduct
  }

  /** `price * quantity` of one line item. */
  function ItemTotal(item: LineItem): int {
    item.price * item.quantity
  }

  function ItemQuantity(item: LineItem): int {
    item.quantity
  }

  // ---------------------------------------------------------------------------
  // Reference definitions over the orders

  /** `order.total_amount || 0`. */
  function OrderTotal(o: Order): int {
    o.totalAmount.GetOr(0)
  }

  /** The line items of an order; none when `order_items` is not an array. */
  function Items(o: Order): seq<LineItem> {
    o.items.GetOr([])
  }

  /** Sum of every order's total. */
  function TotalRevenue(os: seq<Order>): int {
    if |os| == 0 then 0 else TotalRevenue(os[..|os| - 1]) + OrderTotal(os[|os| - 1])
  }

  /** The window test `orderDate >= cutoff`. */
  function AtOrAfter(cutoff: int): Order -> bool {
    (o: Order) => o.createdAt >= cutoff
  }

  /** Sum of the totals of the orders created at or after `cutoff`. */
  function WindowRevenue(os: seq<Order>, cutoff: int): int {
    if |os| == 0 then 0
    else WindowRevenue(os[..|os| - 1], cutoff) + (if os[|os| - 1].createdAt >= cutoff then OrderTotal(os[|os| - 1]) else 0)
  }

  /** Number of orders created at or after `cutoff`. */
  function WindowOrders(os: seq<Order>, cutoff: int): nat {
    |Seqs.Filter(os, AtOrAfter(cutoff))|
  }

  /** Number of orders whose status is `status`. */
  function StatusCount(os: seq<Order>, status: string): nat {
    if |os| == 0 then 0
    else StatusCount(os[..|os| - 1], status) + (if os[|os| - 1].status == status then 1 else 0)
  }

  /** The line items of all orders, order by order. */
  function AllItems(os: seq<Order>): seq<LineItem> {
    if |os| == 0 then [] else AllItems(os[..|os| - 1]) + Items(os[|os| - 1])
  }

  /** The keys (`key` is the store id or the product id) that occur in `its`, ignoring empty ones. */
  function KeySet(its: seq<LineItem>, key: LineItem -> string): (r: set<string>)
    ensures "" !in r
  {
    if |its| == 0 then {}
    else KeySet(its[..|its| - 1], key) + (if key(its[|its| - 1]) == "" then {} else {key(its[|its| - 1])})
  }

  /** The same keys in order of first appearance: the insertion order of the dictionary. */
  function KeyOrder(its: seq<LineItem>, key: LineItem -> string): seq<string> {
    if |its| == 0 then []
    else
      var k := key(its[|its| - 1]);
      if k == "" || k in KeySet(its[..|its| - 1], key) then KeyOrder(its[..|its| - 1], key)
      else KeyOrder(its[..|its| - 1], key) + [k]
  }

  /** Sum of `value` over the items whose key is `k`. */
  function SumFor(its: seq<LineItem>, key: LineItem -> string, k: string, value: LineItem -> int): int {
    if |its| == 0 then 0
    else SumFor(its[..|its| - 1], key, k, value) + (if key(its[|its| - 1]) == k then value(its[|its| - 1]) else 0)
  }

  /** The first item whose key is `k`. */
  function FirstWithKey(its: seq<LineItem>, key: LineItem -> string, k: string): Option<LineItem> {
    if |its| == 0 then None
    else if key(its[0]) == k then Some(its[0])
    else FirstWithKey(its[1..], key, k)
  }

  /** Number of orders that have at least one line item of store `k`. */
  function OrdersWithStore(os: seq<Order>, k: string): nat {
    if |os| == 0 then 0
    else OrdersWithStore(os[..|os| - 1], k) + (if k in KeySet(Items(os[|os| - 1]), StoreIdOf) then 1 else 0)
  }

  /** What the store dictionary holds for `k` after the items `its` of the orders `os`. */
  function StoreEntry(its: seq<LineItem>, os: seq<Order>, k: string): TopStore {
    var name := match FirstWithKey(its, StoreIdOf, k) case Some(x) => StoreNameOf(x) case None => UnknownStore;
    TopStore(k, name, SumFor(its, StoreIdOf, k, ItemTotal), OrdersWithStore(os, k))
  }

  /** What the product dictionary holds for `k` after the items `its`. */
  function ProductEntry(its: seq<LineItem>, k: string): TopProduct {
    var name := match FirstWithKey(its, ProductIdOf, k) case Some(x) => ProductNameOf(x) case None => UnknownProduct;
    TopProduct(name, SumFor(its, ProductIdOf, k, ItemQuantity), SumFor(its, ProductIdOf, k, ItemTotal))
  }

  /** `Object.values(storeStats)` after all orders. */
  function StoreValues(os: seq<Order>): seq<TopStore> {
    var its := AllItems(os);
    var ks := KeyOrder(its, StoreIdOf);
    seq(|ks|, i requires 0 <= i < |ks| => StoreEntry(its, os, ks[i]))
  }

  /** `Object.values(productStats)` after all orders. */
  function ProductValues(os: seq<Order>): seq<TopProduct> {
    var its := AllItems(os);
    var ks := KeyOrder(its, ProductIdOf);
    seq(|ks|, i requires 0 <= i < |ks| => ProductEntry(its, ks[i]))
  }

  function StoreRevenue(s: TopStore): int {
    s.revenue
  }

  function ProductRevenue(p: TopProduct): int {
    p.revenue
  }

  function TopStoresOf(os: seq<Order>): seq<TopStore> {
    Leaderboard.Top(Leaderboard.SortDesc(StoreValues(os), StoreRevenue), TopCount)
  }

  function TopProductsOf(os: seq<Order>): seq<TopProduct> {
    Leaderboard.Top(Leaderboard.SortDesc(ProductValues(os), ProductRevenue), TopCount)
  }

  function SummaryOf(os: seq<Order>, today: int, weekAgo: int, monthAgo: int): Summary {
    Summary(
      TotalRevenue(os), |os|,
      StatusCount(os, Pending), StatusCount(os, Processing), StatusCount(os, Delivering),
      StatusCount(os, Completed), StatusCount(os, Cancelled),
      WindowRevenue(os, today), WindowOrders(os, today),
      WindowRevenue(os, weekAgo), WindowOrders(os, weekAgo),
      WindowRevenue(os, monthAgo), WindowOrders(os, monthAgo))
  }

  // ---------------------------------------------------------------------------
  // Keyed aggregation: facts about KeySet, KeyOrder and FirstWithKey

  lemma {:induction false} KeySetMeaning(its: seq<LineItem>, key: LineItem -> string, k: string)
    ensures k in KeySet(its, key) <==> k != "" && exists i :: 0 <= i < |its| && key(its[i]) == k
  {
    if |its| > 0 {
      var init := its[..|its| - 1];
      KeySetMeaning(init, key, k);
      if k in KeySet(init, key) {
        var i :| 0 <= i < |init| && key(init[i]) == k;
        assert its[i] == init[i];
      }
      if k != "" && exists i :: 0 <= i < |its| && key(its[i]) == k {
        var i :| 0 <= i < |its| && key(its[i]) == k;
        if i < |init| {
          assert init[i] == its[i];
        }
      }
    }
  }

  lemma {:induction false} KeySetAppend(a: seq<LineItem>, b: seq<LineItem>, key: LineItem -> string)
    ensures KeySet(a + b, key) == KeySet(a, key) + KeySet(b, key)
  {
    if |b| == 0 {
      assert a + b == a;
    } else {
      var b' := b[..|b| - 1];
      assert (a + b)[..|a + b| - 1] == a + b';
      assert (a + b)[|a + b| - 1] == b[|b| - 1];
      KeySetAppend(a, b', key);
    }
  }

  /** The dictionary's insertion order lists every key exactly once. */
  lemma {:induction false} KeyOrderShape(its: seq<LineItem>, key: LineItem -> string)
    ensures Seqs.Distinct(KeyOrder(its, key))
    ensures forall k :: k in KeyOrder(its, key) <==> k in KeySet(its, key)
  {
    if |its| > 0 {
      KeyOrderShape(its[..|its| - 1], key);
    }
  }

  /** `FirstWithKey` finds the earliest item with key `k`, and finds nothing when there is none. */
  lemma {:induction false} FirstWithKeyMeaning(its: seq<LineItem>, key: LineItem -> string, k: string)
    ensures FirstWithKey(its, key, k).None? <==> forall i :: 0 <= i < |its| ==> key(its[i]) != k
    ensures FirstWithKey(its, key, k).Some? ==>
              exists i :: 0 <= i < |its| && its[i] == FirstWithKey(its, key, k).value && key(its[i]) == k
                          && forall j :: 0 <= j < i ==> key(its[j]) != k
  {
    if |its| > 0 && key(its[0]) != k {
      FirstWithKeyMeaning(its[1..], key, k);
      if FirstWithKey(its, key, k).Some? {
        var i :| 0 <= i < |its[1..]| && its[1..][i] == FirstWithKey(its, key, k).value && key(its[1..][i]) == k
                 && forall j :: 0 <= j < i ==> key(its[1..][j]) != k;
        assert its[i + 1] == its[1..][i];
        forall j | 0 <= j < i + 1 ensures key(its[j]) != k {
          if j > 0 { assert its[j] == its[1..][j - 1]; }
        }
      } else {
        forall i | 0 <= i < |its| ensures key(its[i]) != k {
          if i > 0 { assert its[i] == its[1..][i - 1]; }
        }
      }
    } else if |its| > 0 {
      assert key(its[0]) == k;
    }
  }

  /** Appending an item changes the first item for `k` only when `k` had none. */
  lemma {:induction false} FirstWithKeySnoc(its: seq<LineItem>, x: LineItem, key: LineItem -> string, k: string)
    requires k != ""
    ensures k in KeySet(its, key) <==> FirstWithKey(its, key, k).Some?
    ensures FirstWithKey(its + [x], key, k) ==
              if k in KeySet(its, key) then FirstWithKey(its, key, k)
              else if key(x) == k then Some(x) else None
  {
    KeySetMeaning(its, key, k);
    FirstWithKeyMeaning(its, key, k);
    FirstWithKeyAppend(its, x, key, k);
  }

  lemma {:induction false} FirstWithKeyAppend(its: seq<LineItem>, x: LineItem, key: LineItem -> string, k: string)
    ensures FirstWithKey(its + [x], key, k) ==
              if FirstWithKey(its, key, k).Some? then FirstWithKey(its, key, k)
              else if key(x) == k then Some(x) else None
  {
    if |its| == 0 {
      assert its + [x] == [x];
    } else {
      assert (its + [x])[0] == its[0];
      assert (its + [x])[1..] == its[1..] + [x];
      if key(its[0]) != k {
        FirstWithKeyAppend(its[1..], x, key, k);
      }
    }
  }

  /** A key that no item carries sums to nothing. */
  lemma {:induction false} SumForAbsent(its: seq<LineItem>, key: LineItem -> string, k: string, value: LineItem -> int)
    requires k != "" && k !in KeySet(its, key)
    ensures SumFor(its, key, k, value) == 0
  {
    if |its| > 0 {
      SumForAbsent(its[..|its| - 1], key, k, value);
    }
  }

  /** How one more item changes a store's entry: a known store gains the item's revenue, and a
      store seen for the first time takes the item's store name, revenue and the orders counted so far. */
  lemma StoreEntrySnoc(its: seq<LineItem>, x: LineItem, os: seq<Order>, k: string)
    requires k != ""
    ensures StoreEntry(its + [x], os, k) ==
              if k in KeySet(its, StoreIdOf) then
                StoreEntry(its, os, k).(revenue := StoreEntry(its, os, k).revenue + (if StoreIdOf(x) == k then ItemTotal(x) else 0))
              else if StoreIdOf(x) == k then TopStore(k, StoreNameOf(x), ItemTotal(x), OrdersWithStore(os, k))
              else StoreEntry(its, os, k)
  {
    assert (its + [x])[..|its|] == its;
    FirstWithKeySnoc(its, x, StoreIdOf, k);
    if k !in KeySet(its, StoreIdOf) {
      SumForAbsent(its, StoreIdOf, k, ItemTotal);
    }
  }

  /** How one more item changes a product's entry. */
  lemma ProductEntrySnoc(its: seq<LineItem>, x: LineItem, k: string)
    requires k != ""
    ensures ProductEntry(its + [x], k) ==
              var e := ProductEntry(its, k);
              if k in KeySet(its, ProductIdOf) then
                (if ProductIdOf(x) == k then e.(quantity := e.quantity + ItemQuantity(x), revenue := e.revenue + ItemTotal(x)) else e)
              else if ProductIdOf(x) == k then TopProduct(ProductNameOf(x), ItemQuantity(x), ItemTotal(x))
              else e
  {
    assert (its + [x])[..|its|] == its;
    FirstWithKeySnoc(its, x, ProductIdOf, k);
    if k !in KeySet(its, ProductIdOf) {
      SumForAbsent(its, ProductIdOf, k, ItemTotal);
      SumForAbsent(its, ProductIdOf, k, ItemQuantity);
    }
  }

  /** A store that no line item mentions has been counted in no order. */
  lemma {:induction false} OrdersWithStoreZero(os: seq<Order>, k: string)
    requires k !in KeySet(AllItems(os), StoreIdOf)
    ensures OrdersWithStore(os, k) == 0
  {
    if |os| > 0 {
      var init := os[..|os| - 1];
      KeySetAppend(AllItems(init), Items(os[|os| - 1]), StoreIdOf);
      OrdersWithStoreZero(init, k);
    }
  }

  // ---------------------------------------------------------------------------
  // The roll-up itself

  /** The store dictionary (with its insertion order `keys`) holds exactly the stores of the
      items `its`, each with the entry the reference definitions give. */
  ghost predicate StoreTable(keys: seq<string>, stats: map<string, TopStore>, its: seq<LineItem>, os: seq<Order>) {
    && keys == KeyOrder(its, StoreIdOf)
    && stats.Keys == KeySet(its, StoreIdOf)
    && forall k :: k in stats ==> stats[k] == StoreEntry(its, os, k)
  }

  /** Likewise for the product dictionary. */
  ghost predicate ProductTable(keys: seq<string>, stats: map<string, TopProduct>, its: seq<LineItem>) {
    && keys == KeyOrder(its, ProductIdOf)
    && stats.Keys == KeySet(its, ProductIdOf)
    && forall k :: k in stats ==> stats[k] == ProductEntry(its, k)
  }

  /** The store half of one iteration of the first `forEach` over an order's items: an item with a
      store id creates the store's entry on first sight (named after this item's store) and adds
      `price * quantity` to its revenue. `os` are the orders already processed; `its` the items seen. */
  method TrackStoreItem(item: LineItem, ghost its: seq<LineItem>, ghost os: seq<Order>,
                        keys0: seq<string>, stats0: map<string, TopStore>)
    returns (keys: seq<string>, stats: map<string, TopStore>)
    requires StoreTable(keys0, stats0, its, os)
    requires KeySet(AllItems(os), StoreIdOf) <= KeySet(its, StoreIdOf)
    ensures StoreTable(keys, stats, its + [item], os)
  {
    keys, stats := keys0, stats0;
    assert (its + [item])[..|its|] == its;
    var storeId := StoreIdOf(item);
    var storeName := StoreNameOf(item);
    if storeId != "" {
      if storeId !in stats {
        OrdersWithStoreZero(os, storeId);
        stats := stats[storeId := TopStore(storeId, storeName, 0, 0)];
        keys := keys + [storeId];
      }
      var itemTotal := ItemTotal(item);
      stats := stats[storeId := stats[storeId].(revenue := stats[storeId].revenue + itemTotal)];
    }
    forall k | k in stats ensures stats[k] == StoreEntry(its + [item], os, k) {
      StoreEntrySnoc(its, item, os, k);
    }
  }

  /** The product half of the same iteration: an item with a product id creates the product's
      entry on first sight and adds the item's quantity and `price * quantity`. */
  method TrackProductItem(item: LineItem, ghost its: seq<LineItem>,
                          keys0: seq<string>, stats0: map<string, TopProduct>)
    returns (keys: seq<string>, stats: map<string, TopProduct>)
    requires ProductTable(keys0, stats0, its)
    ensures ProductTable(keys, stats, its + [item])
  {
    keys, stats := keys0, stats0;
    assert (its + [item])[..|its|] == its;
    var productId := ProductIdOf(item);
    if productId != "" {
      if productId !in stats {
        stats := stats[productId := TopProduct(ProductNameOf(item), 0, 0)];
        keys := keys + [productId];
      }
      stats := stats[productId := stats[productId].(quantity := stats[productId].quantity + ItemQuantity(item))];
      stats := stats[productId := stats[productId].(revenue := stats[productId].revenue + ItemTotal(item))];
    }
    forall k | k in stats ensures stats[k] == ProductEntry(its + [item], k) {
      ProductEntrySnoc(its, item, k);
    }
  }

  /** One iteration of the first `forEach`: the store half, then the product half. */
  method TrackItem(item: LineItem, ghost its: seq<LineItem>, ghost os: seq<Order>,
                   storeKeys0: seq<string>, storeStats0: map<string, TopStore>,
                   productKeys0: seq<string>, productStats0: map<string, TopProduct>)
    returns (storeKeys: seq<string>, storeStats: map<string, TopStore>,
             productKeys: seq<string>, productStats: map<string, TopProduct>)
    requires StoreTable(storeKeys0, storeStats0, its, os)
    requires ProductTable(productKeys0, productStats0, its)
    requires KeySet(AllItems(os), StoreIdOf) <= KeySet(its, StoreIdOf)
    ensures StoreTable(storeKeys, storeStats, its + [item], os)
    ensures ProductTable(productKeys, productStats, its + [item])
  {
    storeKeys, storeStats := TrackStoreItem(item, its, os, storeKeys0, storeStats0);
    productKeys, productStats := TrackProductItem(item, its, productKeys0, productStats0);
  }

  /** The first `forEach` over one order's items. `os` are the orders already processed. */
  method TrackItems(items: seq<LineItem>, ghost os: seq<Order>,
                    storeKeys0: seq<string>, storeStats0: map<string, TopStore>,
                    productKeys0: seq<string>, productStats0: map<string, TopProduct>)
    returns (storeKeys: seq<string>, storeStats: map<string, TopStore>,
             productKeys: seq<string>, productStats: map<string, TopProduct>)
    requires StoreTable(storeKeys0, storeStats0, AllItems(os), os)
    requires ProductTable(productKeys0, productStats0, AllItems(os))
    ensures StoreTable(storeKeys, storeStats, AllItems(os) + items, os)
    ensures ProductTable(productKeys, productStats, AllItems(os) + items)
  {
    storeKeys, storeStats, productKeys, productStats := storeKeys0, storeStats0, productKeys0, productStats0;
    ghost var seen := AllItems(os);
    ghost var its := seen;
    assert seen + items[..0] == seen;
    var j := 0;
    while j < |items|
      invariant 0 <= j <= |items|
      invariant its == seen + items[..j]
      invariant StoreTable(storeKeys, storeStats, its, os)
      invariant ProductTable(productKeys, productStats, its)
    {
      KeySetAppend(seen, items[..j], StoreIdOf);
      storeKeys, storeStats, productKeys, productStats :=
        TrackItem(items[j], its, os, storeKeys, storeStats, productKeys, productStats);
      Seqs.AppendPrefixSnoc(seen, items, j);
      its := its + [items[j]];
      j := j + 1;
    }
    assert items[..|items|] == items;
  }

  /** `uniqueStoresInOrder`: the distinct store ids of one order's items. */
  method UniqueStoresInOrder(items: seq<LineItem>) returns (ids: set<string>)
    ensures ids == KeySet(items, StoreIdOf)
  {
    ids := {};
    var j := 0;
    while j < |items|
      invariant 0 <= j <= |items|
      invariant ids == KeySet(items[..j], StoreIdOf)
    {
      assert items[..j + 1][..j] == items[..j];
      if StoreIdOf(items[j]) != "" {
        ids := ids + {StoreIdOf(items[j])};
      }
      j := j + 1;
    }
    assert items[..|items|] == items;
  }

  /** `uniqueStoresInOrder.forEach`: one more order for each store of the set that has an entry. */
  method CountOrderPerStore(stats0: map<string, TopStore>, ids: set<string>) returns (stats: map<string, TopStore>)
    ensures stats.Keys == stats0.Keys
    ensures forall k :: k in stats0 ==>
              stats[k] == if k in ids then stats0[k].(orders := stats0[k].orders + 1) else stats0[k]
  {
    stats := stats0;
    var rest := ids;
    while rest != {}
      invariant rest <= ids
      invariant stats.Keys == stats0.Keys
      invariant forall k :: k in stats0 ==>
                  stats[k] == if k in ids - rest then stats0[k].(orders := stats0[k].orders + 1) else stats0[k]
      decreases |rest|
    {
      var storeId :| storeId in rest;
      if storeId in stats {
        stats := stats[storeId := stats[storeId].(orders := stats[storeId].orders + 1)];
      }
      rest := rest - {storeId};
    }
  }

  /** Everything the order `orders[i]` contributes to the two dictionaries: its items (when
      `order_items` is an array), then one order for each store it touches. */
  method TrackOrder(orders: seq<Order>, i: nat,
                    storeKeys0: seq<string>, storeStats0: map<string, TopStore>,
                    productKeys0: seq<string>, productStats0: map<string, TopProduct>)
    returns (storeKeys: seq<string>, storeStats: map<string, TopStore>,
             productKeys: seq<string>, productStats: map<string, TopProduct>)
    requires i < |orders|
    requires StoreTable(storeKeys0, storeStats0, AllItems(orders[..i]), orders[..i])
    requires ProductTable(productKeys0, productStats0, AllItems(orders[..i]))
    ensures StoreTable(storeKeys, storeStats, AllItems(orders[..i + 1]), orders[..i + 1])
    ensures ProductTable(productKeys, productStats, AllItems(orders[..i + 1]))
  {
    var order := orders[i];
    ghost var done := orders[..i];
    ghost var next := orders[..i + 1];
    assert next[..|next| - 1] == done;
    storeKeys, storeStats, productKeys, productStats := storeKeys0, storeStats0, productKeys0, productStats0;
    if order.items.Some? {
      var items := order.items.value;
      assert AllItems(next) == AllItems(done) + items;
      storeKeys, storeStats, productKeys, productStats :=
        TrackItems(items, done, storeKeys, storeStats, productKeys, productStats);
      var uniqueStores := UniqueStoresInOrder(items);
      storeStats := CountOrderPerStore(storeStats, uniqueStores);
      forall k | k in storeStats ensures storeStats[k] == StoreEntry(AllItems(next), next, k) {
        assert OrdersWithStore(next, k) == OrdersWithStore(done, k) + (if k in uniqueStores then 1 else 0);
      }
    } else {
      assert AllItems(next) == AllItems(done) + [] == AllItems(done);
      forall k | k in storeStats ensures storeStats[k] == StoreEntry(AllItems(next), next, k) {
        assert OrdersWithStore(next, k) == OrdersWithStore(done, k);
      }
    }
  }

  /** At the end of the pass the dictionaries' values, in insertion order, are the reference ones. */
  lemma TablesGiveValues(storeKeys: seq<string>, storeStats: map<string, TopStore>,
                         productKeys: seq<string>, productStats: map<string, TopProduct>, os: seq<Order>)
    requires StoreTable(storeKeys, storeStats, AllItems(os), os)
    requires ProductTable(productKeys, productStats, AllItems(os))
    ensures forall k :: k in storeKeys ==> k in storeStats
    ensures forall k :: k in productKeys ==> k in productStats
    ensures ValuesInOrder(storeKeys, storeStats) == StoreValues(os)
    ensures ValuesInOrder(productKeys, productStats) == ProductValues(os)
  {
    KeyOrderShape(AllItems(os), StoreIdOf);
    KeyOrderShape(AllItems(os), ProductIdOf);
  }

  /** `Object.values` of a dictionary whose insertion order is `keys`. */
  function ValuesInOrder<V>(keys: seq<string>, m: map<string, V>): seq<V>
    requires forall k :: k in keys ==> k in m
  {
    seq(|keys|, i requires 0 <= i < |keys| => m[keys[i]])
  }

  /** The aggregation body of `loadStatistics`. The three cutoffs are the starts of today,
      of the day a week ago and of the day a month ago, as timestamps. */
  method LoadStatistics(orders: seq<Order>, today: int, weekAgo: int, monthAgo: int)
    returns (stats: Summary, topStores: seq<TopStore>, topProducts: seq<TopProduct>)
    ensures stats == SummaryOf(orders, today, weekAgo, monthAgo)
    ensures topStores == TopStoresOf(orders)
    ensures topProducts == TopProductsOf(orders)
  {
    var totalRevenue, todayRevenue, weekRevenue, monthRevenue := 0, 0, 0, 0;
    var pendingOrders, processingOrders, deliveringOrders, completedOrders, cancelledOrders := 0, 0, 0, 0, 0;
    var storeKeys: seq<string>, storeStats: map<string, TopStore> := [], map[];
    var productKeys: seq<string>, productStats: map<string, TopProduct> := [], map[];

    var i := 0;
    while i < |orders|
      invariant 0 <= i <= |orders|
      invariant totalRevenue == TotalRevenue(orders[..i])
      invariant todayRevenue == WindowRevenue(orders[..i], today)
      invariant weekRevenue == WindowRevenue(orders[..i], weekAgo)
      invariant monthRevenue == WindowRevenue(orders[..i], monthAgo)
      invariant pendingOrders == StatusCount(orders[..i], Pending)
      invariant processingOrders == StatusCount(orders[..i], Processing)
      invariant deliveringOrders == StatusCount(orders[..i], Delivering)
      invariant completedOrders == StatusCount(orders[..i], Completed)
      invariant cancelledOrders == StatusCount(orders[..i], Cancelled)
      invariant StoreTable(storeKeys, storeStats, AllItems(orders[..i]), orders[..i])
      invariant ProductTable(productKeys, productStats, AllItems(orders[..i]))
    {
      var order := orders[i];
      assert orders[..i + 1][..i] == orders[..i];

      var orderTotal := OrderTotal(order);
      totalRevenue := totalRevenue + orderTotal;
      if order.createdAt >= today {
        todayRevenue := todayRevenue + orderTotal;
      }
      if order.createdAt >= weekAgo {
        weekRevenue := weekRevenue + orderTotal;
      }
      if order.createdAt >= monthAgo {
        monthRevenue := monthRevenue + orderTotal;
      }

      if order.status == Pending {
        pendingOrders := pendingOrders + 1;
      } else if order.status == Processing {
        processingOrders := processingOrders + 1;
      } else if order.status == Delivering {
        deliveringOrders := deliveringOrders + 1;
      } else if order.status == Completed {
        completedOrders := completedOrders + 1;
      } else if order.status == Cancelled {
        cancelledOrders := cancelledOrders + 1;
      }

      storeKeys, storeStats, productKeys, productStats :=
        TrackOrder(orders, i, storeKeys, storeStats, productKeys, productStats);
      i := i + 1;
    }
    assert orders[..|orders|] == orders;

    TablesGiveValues(storeKeys, storeStats, productKeys, productStats, orders);
    var storeValues := ValuesInOrder(storeKeys, storeStats);
    var productValues := ValuesInOrder(productKeys, productStats);
    topStores := Leaderboard.Top(Leaderboard.SortDesc(storeValues, StoreRevenue), TopCount);
    topProducts := Leaderboard.Top(Leaderboard.SortDesc(productValues, ProductRevenue), TopCount);

    var todayOrdersCount := |Seqs.Filter(orders, AtOrAfter(today))|;
    var weekOrdersCount := |Seqs.Filter(orders, AtOrAfter(weekAgo))|;
    var monthOrdersCount := |Seqs.Filter(orders, AtOrAfter(monthAgo))|;

    stats := Summary(
      totalRevenue, |orders|,
      pendingOrders, processingOrders, deliveringOrders, completedOrders, cancelledOrders,
      todayRevenue, todayOrdersCount, weekRevenue, weekOrdersCount, monthRevenue, monthOrdersCount);
  }

  // ---------------------------------------------------------------------------
  // Properties of the roll-up

  predicate NonNegativeTotals(os: seq<Order>) {
    forall i :: 0 <= i < |os| ==> OrderTotal(os[i]) >= 0
  }

  /** A later cutoff selects no more orders than an earlier one, and no window more than all. */
  lemma WindowOrdersNested(os: seq<Order>, later: int, earlier: int)
    requires earlier <= later
    ensures WindowOrders(os, later) <= WindowOrders(os, earlier) <= |os|
  {
    Seqs.FilterMonotone(os, AtOrAfter(later), AtOrAfter(earlier));
  }

  /** With non-negative totals, a later cutoff selects no more revenue than an earlier one, and
      no window more than the overall total. */
  lemma {:induction false} WindowRevenueNested(os: seq<Order>, later: int, earlier: int)
    requires earlier <= later
    requires NonNegativeTotals(os)
    ensures WindowRevenue(os, later) <= WindowRevenue(os, earlier) <= TotalRevenue(os)
  {
    if |os| > 0 {
      var init := os[..|os| - 1];
      assert NonNegativeTotals(init) by {
        forall i | 0 <= i < |init| ensures OrderTotal(init[i]) >= 0 {
          assert init[i] == os[i];
        }
      }
      assert OrderTotal(os[|os| - 1]) >= 0;
      WindowRevenueNested(init, later, earlier);
    }
  }

  /** With `monthAgo <= weekAgo <= today` the three windows nest: today <= week <= month <= total
      order counts, and the same for revenue when the totals are non-negative. */
  lemma SummaryWindowsNested(os: seq<Order>, today: int, weekAgo: int, monthAgo: int)
    requires monthAgo <= weekAgo <= today
    ensures var s := SummaryOf(os, today, weekAgo, monthAgo);
            s.todayOrders <= s.weekOrders <= s.monthOrders <= s.totalOrders
    ensures NonNegativeTotals(os) ==>
              var s := SummaryOf(os, today, weekAgo, monthAgo);
              s.todayRevenue <= s.weekRevenue <= s.monthRevenue <= s.totalRevenue
  {
    WindowOrdersNested(os, today, weekAgo);
    WindowOrdersNested(os, weekAgo, monthAgo);
    if NonNegativeTotals(os) {
      WindowRevenueNested(os, today, weekAgo);
      WindowRevenueNested(os, weekAgo, monthAgo);
    }
  }

  function KnownStatusTotal(os: seq<Order>): nat {
    StatusCount(os, Pending) + StatusCount(os, Processing) + StatusCount(os, Delivering)
    + StatusCount(os, Completed) + StatusCount(os, Cancelled)
  }

  /** The five status counters together never exceed the number of orders, and reach it
      exactly when every order has one of the five known statuses. */
  lemma {:induction false} StatusCountsBounded(os: seq<Order>)
    ensures KnownStatusTotal(os) <= |os|
    ensures (forall i :: 0 <= i < |os| ==> KnownStatus(os[i].status)) ==> KnownStatusTotal(os) == |os|
  {
    if |os| > 0 {
      var init := os[..|os| - 1];
      StatusCountsBounded(init);
      if forall i :: 0 <= i < |os| ==> KnownStatus(os[i].status) {
        assert forall i :: 0 <= i < |init| ==> init[i] == os[i];
        assert KnownStatus(os[|os| - 1].status);
      }
    }
  }

  /** An order with an unknown status still counts toward the totals but changes no status counter. */
  lemma UnknownStatusCountsNothing(os: seq<Order>, o: Order, today: int, weekAgo: int, monthAgo: int)
    requires !KnownStatus(o.status)
    ensures var before, after := SummaryOf(os, today, weekAgo, monthAgo), SummaryOf(os + [o], today, weekAgo, monthAgo);
            && after.totalOrders == before.totalOrders + 1
            && after.totalRevenue == before.totalRevenue + OrderTotal(o)
            && after.pendingOrders == before.pendingOrders && after.processingOrders == before.processingOrders
            && after.deliveringOrders == before.deliveringOrders && after.completedOrders == before.completedOrders
            && after.cancelledOrders == before.cancelledOrders
  {
    assert (os + [o])[..|os|] == os;
  }

  /** De-duplication of store orders: an order raises a store's order count by exactly one when
      at least one of its items belongs to that store, however many such items it has. */
  lemma StoreOrdersDedup(os: seq<Order>, o: Order, k: string)
    requires k != ""
    ensures OrdersWithStore(os + [o], k) ==
              OrdersWithStore(os, k) + (if exists i :: 0 <= i < |Items(o)| && StoreIdOf(Items(o)[i]) == k then 1 else 0)
  {
    assert (os + [o])[..|os|] == os;
    KeySetMeaning(Items(o), StoreIdOf, k);
  }

  /** No store is counted in more orders than there are. */
  lemma {:induction false} StoreOrdersBounded(os: seq<Order>, k: string)
    ensures OrdersWithStore(os, k) <= |os|
  {
    if |os| > 0 {
      StoreOrdersBounded(os[..|os| - 1], k);
    }
  }

  /** A keyed sum over the items of all orders is the sum over the earlier orders plus the
      sum over the last order's items. */
  lemma {:induction false} SumForAppend(a: seq<LineItem>, b: seq<LineItem>, key: LineItem -> string, k: string, value: LineItem -> int)
    ensures SumFor(a + b, key, k, value) == SumFor(a, key, k, value) + SumFor(b, key, k, value)
  {
    if |b| == 0 {
      assert a + b == a;
    } else {
      var b' := b[..|b| - 1];
      assert (a + b)[..|a + b| - 1] == a + b';
      assert (a + b)[|a + b| - 1] == b[|b| - 1];
      SumForAppend(a, b', key, k, value);
    }
  }

  /** Each key of the insertion order is non-empty, and its first item is the earliest item
      carrying that key. */
  lemma KeyOrderFirstSeen(its: seq<LineItem>, key: LineItem -> string, i: nat)
    requires i < |KeyOrder(its, key)|
    ensures var k := KeyOrder(its, key)[i];
            && k != ""
            && FirstWithKey(its, key, k).Some?
            && exists j :: 0 <= j < |its| && its[j] == FirstWithKey(its, key, k).value && key(its[j]) == k
                           && forall j' :: 0 <= j' < j ==> key(its[j']) != k
  {
    var k := KeyOrder(its, key)[i];
    KeyOrderShape(its, key);
    assert k in KeyOrder(its, key);
    KeySetMeaning(its, key, k);
    FirstWithKeyMeaning(its, key, k);
  }

  /** Every non-empty key that occurs among the items appears in the insertion order. */
  lemma KeyOrderComplete(its: seq<LineItem>, key: LineItem -> string, j: nat)
    requires j < |its| && key(its[j]) != ""
    ensures key(its[j]) in KeyOrder(its, key)
  {
    KeyOrderShape(its, key);
    KeySetMeaning(its, key, key(its[j]));
  }

  /** The dictionary holds one value per distinct key. */
  lemma KeyOrderLength(its: seq<LineItem>, key: LineItem -> string)
    ensures |KeyOrder(its, key)| == |KeySet(its, key)|
  {
    var ks := KeyOrder(its, key);
    KeyOrderShape(its, key);
    Seqs.DistinctCardinality(ks);
    assert (set x | x in ks) == KeySet(its, key);
  }

  /** The `i`-th store value belongs to the `i`-th key of the insertion order: a non-empty
      store id, the store's revenue sum and its order count, at most the number of orders. */
  lemma StoreValueAt(os: seq<Order>, i: nat)
    requires i < |StoreValues(os)|
    ensures StoreValues(os)[i].storeId == KeyOrder(AllItems(os), StoreIdOf)[i]
    ensures StoreValues(os)[i].storeId != ""
    ensures StoreValues(os)[i].revenue == SumFor(AllItems(os), StoreIdOf, StoreValues(os)[i].storeId, ItemTotal)
    ensures StoreValues(os)[i].orders == OrdersWithStore(os, StoreValues(os)[i].storeId) <= |os|
  {
    var k := KeyOrder(AllItems(os), StoreIdOf)[i];
    assert StoreValues(os)[i] == StoreEntry(AllItems(os), os, k);
    KeyOrderFirstSeen(AllItems(os), StoreIdOf, i);
    StoreOrdersBounded(os, k);
  }

  /** Every store id among the items has a value. */
  lemma StoreValuesCover(os: seq<Order>, j: nat)
    requires j < |AllItems(os)| && StoreIdOf(AllItems(os)[j]) != ""
    ensures exists i :: 0 <= i < |StoreValues(os)| && StoreValues(os)[i].storeId == StoreIdOf(AllItems(os)[j])
  {
    var ks := KeyOrder(AllItems(os), StoreIdOf);
    KeyOrderComplete(AllItems(os), StoreIdOf, j);
    var i :| 0 <= i < |ks| && ks[i] == StoreIdOf(AllItems(os)[j]);
    StoreValueAt(os, i);
  }

  /** The store dictionary's values: one entry per store id that occurs among the items
      (items without a store id create none), each holding the sum of `price * quantity` over
      that store's items and the number of orders that touch the store, never more than the
      number of orders. */
  lemma StoreValuesShape(os: seq<Order>)
    ensures |StoreValues(os)| == |KeySet(AllItems(os), StoreIdOf)|
    ensures forall i, j :: 0 <= i < j < |StoreValues(os)| ==> StoreValues(os)[i].storeId != StoreValues(os)[j].storeId
    ensures forall i :: 0 <= i < |StoreValues(os)| ==>
              && StoreValues(os)[i].storeId != ""
              && StoreValues(os)[i].revenue == SumFor(AllItems(os), StoreIdOf, StoreValues(os)[i].storeId, ItemTotal)
              && StoreValues(os)[i].orders == OrdersWithStore(os, StoreValues(os)[i].storeId)
              && StoreValues(os)[i].orders <= |os|
    ensures forall j :: 0 <= j < |AllItems(os)| && StoreIdOf(AllItems(os)[j]) != "" ==>
              exists i :: 0 <= i < |StoreValues(os)| && StoreValues(os)[i].storeId == StoreIdOf(AllItems(os)[j])
  {
    var vs, its := StoreValues(os), AllItems(os);
    var ks := KeyOrder(its, StoreIdOf);
    KeyOrderLength(its, StoreIdOf);
    KeyOrderShape(its, StoreIdOf);
    forall i | 0 <= i < |vs|
      ensures vs[i].storeId == ks[i] && vs[i].storeId != "" && vs[i].revenue == SumFor(its, StoreIdOf, vs[i].storeId, ItemTotal)
      ensures vs[i].orders == OrdersWithStore(os, vs[i].storeId) <= |os|
    {
      StoreValueAt(os, i);
    }
    forall j | 0 <= j < |its| && StoreIdOf(its[j]) != ""
      ensures exists i :: 0 <= i < |vs| && vs[i].storeId == StoreIdOf(its[j])
    {
      StoreValuesCover(os, j);
    }
  }

  /** A store's name is fixed by the first item of that store: that item's store name, or
      "Noma'lum do'kon" when it has none. */
  lemma StoreNameFirstSeen(os: seq<Order>, i: nat)
    requires i < |StoreValues(os)|
    ensures exists j :: 0 <= j < |AllItems(os)| && StoreIdOf(AllItems(os)[j]) == StoreValues(os)[i].storeId
                        && StoreValues(os)[i].storeName == StoreNameOf(AllItems(os)[j])
                        && forall j' :: 0 <= j' < j ==> StoreIdOf(AllItems(os)[j']) != StoreValues(os)[i].storeId
  {
    var its := AllItems(os);
    var k := KeyOrder(its, StoreIdOf)[i];
    KeyOrderFirstSeen(its, StoreIdOf, i);
    assert StoreValues(os)[i] == StoreEntry(its, os, k);
  }

  /** The product dictionary's values: one entry per product id among the items (items without
      a product are skipped), with the summed quantity and `price * quantity`, named after the
      first item of that product or "Noma'lum mahsulot". */
  lemma ProductValuesShape(os: seq<Order>)
    ensures var vs, its, ks := ProductValues(os), AllItems(os), KeyOrder(AllItems(os), ProductIdOf);
            && |vs| == |ks| == |KeySet(its, ProductIdOf)|
            && Seqs.Distinct(ks)
            && (forall i :: 0 <= i < |vs| ==>
                  && ks[i] != ""
                  && vs[i].quantity == SumFor(its, ProductIdOf, ks[i], ItemQuantity)
                  && vs[i].revenue == SumFor(its, ProductIdOf, ks[i], ItemTotal)
                  && exists j :: 0 <= j < |its| && ProductIdOf(its[j]) == ks[i] && vs[i].name == ProductNameOf(its[j])
                                 && forall j' :: 0 <= j' < j ==> ProductIdOf(its[j']) != ks[i])
            && (forall j :: 0 <= j < |its| && ProductIdOf(its[j]) != "" ==> ProductIdOf(its[j]) in ks)
  {
    var vs, its := ProductValues(os), AllItems(os);
    var ks := KeyOrder(its, ProductIdOf);
    KeyOrderLength(its, ProductIdOf);
    KeyOrderShape(its, ProductIdOf);
    forall i | 0 <= i < |vs|
      ensures ks[i] != ""
      ensures exists j :: 0 <= j < |its| && ProductIdOf(its[j]) == ks[i] && vs[i].name == ProductNameOf(its[j])
                          && forall j' :: 0 <= j' < j ==> ProductIdOf(its[j']) != ks[i]
    {
      KeyOrderFirstSeen(its, ProductIdOf, i);
    }
    forall j | 0 <= j < |its| && ProductIdOf(its[j]) != "" ensures ProductIdOf(its[j]) in ks {
      KeyOrderComplete(its, ProductIdOf, j);
    }
  }

  /** The store leaderboard holds min(10, number of stores) entries, all from the dictionary,
      in non-increasing revenue order; it is a prefix of the stable sort, so stores with equal
      revenue keep the order in which they were first seen. */
  lemma TopStoresShape(os: seq<Order>)
    ensures var top, vs := TopStoresOf(os), StoreValues(os);
            var sorted := Leaderboard.SortDesc(vs, StoreRevenue);
            && |top| == (if |vs| <= TopCount then |vs| else TopCount)
            && Leaderboard.SortedDesc(top, StoreRevenue)
            && multiset(top) <= multiset(vs)
            && top == sorted[..|top|]
            && forall v :: Leaderboard.WithKey(sorted, StoreRevenue, v) == Leaderboard.WithKey(vs, StoreRevenue, v)
  {
    var vs := StoreValues(os);
    var sorted := Leaderboard.SortDesc(vs, StoreRevenue);
    Leaderboard.SortDescSorted(vs, StoreRevenue);
    Leaderboard.SortDescPermutes(vs, StoreRevenue);
    Leaderboard.TopShape(sorted, TopCount, StoreRevenue);
    forall v ensures Leaderboard.WithKey(sorted, StoreRevenue, v) == Leaderboard.WithKey(vs, StoreRevenue, v) {
      Leaderboard.SortDescStable(vs, StoreRevenue, v);
    }
  }

  /** The same for the product leaderboard. */
  lemma TopProductsShape(os: seq<Order>)
    ensures var top, vs := TopProductsOf(os), ProductValues(os);
            var sorted := Leaderboard.SortDesc(vs, ProductRevenue);
            && |top| == (if |vs| <= TopCount then |vs| else TopCount)
            && Leaderboard.SortedDesc(top, ProductRevenue)
            && multiset(top) <= multiset(vs)
            && top == sorted[..|top|]
            && forall v :: Leaderboard.WithKey(sorted, ProductRevenue, v) == Leaderboard.WithKey(vs, ProductRevenue, v)
  {
    var vs := ProductValues(os);
    var sorted := Leaderboard.SortDesc(vs, ProductRevenue);
    Leaderboard.SortDescSorted(vs, ProductRevenue);
    Leaderboard.SortDescPermutes(vs, ProductRevenue);
    Leaderboard.TopShape(sorted, TopCount, ProductRevenue);
    forall v ensures Leaderboard.WithKey(sorted, ProductRevenue, v) == Leaderboard.WithKey(vs, ProductRevenue, v) {
      Leaderboard.SortDescStable(vs, ProductRevenue, v);
    }
  }

  /** No orders: every counter and revenue is zero and both leaderboards are empty. */
  lemma EmptyOrders(today: int, weekAgo: int, monthAgo: int)
    ensures SummaryOf([], today, weekAgo, monthAgo) == Summary(0, 0, 0, 0, 0, 0, 0, 0, 0, 0, 0, 0, 0)
    ensures TopStoresOf([]) == [] && TopProductsOf([]) == []
  {
  }

  /** An order whose `order_items` is missing counts toward the totals ... */
  lemma OrderWithoutItemsCounted(os: seq<Order>, o: Order, today: int, weekAgo: int, monthAgo: int)
    requires o.items.None?
    ensures SummaryOf(os + [o], today, weekAgo, monthAgo).totalOrders == |os| + 1
    ensures SummaryOf(os + [o], today, weekAgo, monthAgo).totalRevenue == TotalRevenue(os) + OrderTotal(o)
  {
    assert (os + [o])[..|os|] == os;
  }

  /** ... and adds nothing to the store and product aggregates. */
  lemma OrderWithoutItemsAddsNoEntries(os: seq<Order>, o: Order)
    requires o.items.None?
    ensures StoreValues(os + [o]) == StoreValues(os)
    ensures ProductValues(os + [o]) == ProductValues(os)
  {
    var next := os + [o];
    assert next[..|os|] == os;
    assert AllItems(next) == AllItems(os) + [] == AllItems(os);
    var its := AllItems(os);
    var ks := KeyOrder(its, StoreIdOf);
    assert KeySet(Items(o), StoreIdOf) == {};
    forall i | 0 <= i < |ks| ensures StoreEntry(its, next, ks[i]) == StoreEntry(its, os, ks[i]) {
      assert OrdersWithStore(next, ks[i]) == OrdersWithStore(os, ks[i]);
    }
  }

  /** Two orders of store "S1", the second forty days before the day of the first: a completed
      order of 2 x 30 for "Apple" and a pending order of 1 x 50 for "Bread". */
  function ExampleOrders(): seq<Order> {
    [Order(Some(100), Completed, 100, Some([ExampleItems()[0]])),
     Order(Some(50), Pending, 60, Some([ExampleItems()[1]]))]
  }

  function ExampleItems(): seq<LineItem> {
    [LineItem(2, 30, Some(ProductRef("P1", "Apple", "S1", "Fresh"))),
     LineItem(1, 50, Some(ProductRef("P2", "Bread", "S1", "Fresh")))]
  }

  /** With the day starting at 100, the week at 93 and the month at 70, only the first order is in
      the month window. */
  lemma ExampleSummary(os: seq<Order>)
    requires os == ExampleOrders()
    ensures SummaryOf(os, 100, 93, 70).totalRevenue == 150
    ensures SummaryOf(os, 100, 93, 70).totalOrders == 2
    ensures SummaryOf(os, 100, 93, 70).monthOrders == 1
    ensures SummaryOf(os, 100, 93, 70).completedOrders == 1
    ensures SummaryOf(os, 100, 93, 70).pendingOrders == 1
  {
    var a, b := os[0], os[1];
    assert os[..1] == [a] && [a][..0] == [] && os[1..] == [b] && [b][1..] == [];
    assert a.totalAmount == Some(100) && a.status == Completed && a.createdAt == 100;
    assert b.totalAmount == Some(50) && b.status == Pending && b.createdAt == 60;
    assert TotalRevenue([a]) == 100;
    assert Completed != Pending by { assert |Completed| != |Pending|; }
    assert StatusCount([a], Completed) == 1;
    assert StatusCount([a], Pending) == 0;
    assert Seqs.Filter(os[1..], AtOrAfter(70)) == [];
  }

  lemma ExampleAllItems(os: seq<Order>)
    requires os == ExampleOrders()
    ensures AllItems(os) == ExampleItems()
  {
    var its := ExampleItems();
    assert os[..1] == [os[0]] && [os[0]][..0] == [];
    assert Items(os[0]) == [its[0]] && Items(os[1]) == [its[1]];
    assert AllItems([os[0]]) == [its[0]];
    assert its == [its[0]] + [its[1]];
  }

  /** The keys, sums and first items of the example's line items. */
  lemma ExampleKeys(its: seq<LineItem>)
    requires its == ExampleItems()
    ensures KeyOrder(its, StoreIdOf) == ["S1"]
    ensures KeyOrder(its, ProductIdOf) == ["P1", "P2"]
    ensures SumFor(its, StoreIdOf, "S1", ItemTotal) == 110
    ensures SumFor(its, ProductIdOf, "P1", ItemTotal) == 60 && SumFor(its, ProductIdOf, "P1", ItemQuantity) == 2
    ensures SumFor(its, ProductIdOf, "P2", ItemTotal) == 50 && SumFor(its, ProductIdOf, "P2", ItemQuantity) == 1
    ensures FirstWithKey(its, StoreIdOf, "S1") == Some(its[0])
    ensures FirstWithKey(its, ProductIdOf, "P1") == Some(its[0])
    ensures FirstWithKey(its, ProductIdOf, "P2") == Some(its[1])
  {
    var x, y := its[0], its[1];
    assert its[..1] == [x] && [x][..0] == [] && its[1..] == [y];
    assert StoreIdOf(x) == "S1" && StoreIdOf(y) == "S1";
    assert ProductIdOf(x) == "P1" && ProductIdOf(y) == "P2";
    assert "P1" != "P2" by { assert "P1"[1] != "P2"[1]; }
    assert KeySet([x], StoreIdOf) == KeySet([], StoreIdOf) + {"S1"} == {"S1"};
    assert KeySet([x], ProductIdOf) == KeySet([], ProductIdOf) + {"P1"} == {"P1"};
    assert [x][..|[x]| - 1] == [];
    assert KeyOrder([x], StoreIdOf) == ["S1"];
    assert KeyOrder([x], ProductIdOf) == ["P1"];
    assert ItemTotal(x) == 60 && ItemQuantity(x) == 2;
    assert SumFor([x], StoreIdOf, "S1", ItemTotal) == 60;
    assert SumFor([x], ProductIdOf, "P1", ItemTotal) == 60;
    assert SumFor([x], ProductIdOf, "P1", ItemQuantity) == 2;
    assert SumFor([x], ProductIdOf, "P2", ItemTotal) == 0;
    assert SumFor([x], ProductIdOf, "P2", ItemQuantity) == 0;
  }

  /** One store holding both orders' revenue, and "Apple" ahead of "Bread" on the product leaderboard. */
  lemma ExampleAggregates(os: seq<Order>)
    requires os == ExampleOrders()
    ensures StoreValues(os) == [TopStore("S1", "Fresh", 110, 2)]
    ensures TopProductsOf(os) == [TopProduct("Apple", 2, 60), TopProduct("Bread", 1, 50)]
  {
    ExampleAllItems(os);
    var its := AllItems(os);
    ExampleKeys(its);
    var a, b := os[0], os[1];
    assert os[..1] == [a] && [a][..0] == [];
    assert KeySet(Items(a), StoreIdOf) == {"S1"} && KeySet(Items(b), StoreIdOf) == {"S1"} by {
      assert Items(a)[..0] == [] && Items(b)[..0] == [];
    }
    assert OrdersWithStore([a], "S1") == 1;
    assert OrdersWithStore(os, "S1") == 2;
    assert StoreEntry(its, os, "S1") == TopStore("S1", "Fresh", 110, 2);
    assert StoreValues(os) == [StoreEntry(its, os, "S1")];
    var pv := [TopProduct("Apple", 2, 60), TopProduct("Bread", 1, 50)];
    assert ProductEntry(its, "P1") == pv[0] && ProductEntry(its, "P2") == pv[1];
    assert ProductValues(os) == [ProductEntry(its, "P1"), ProductEntry(its, "P2")];
    assert pv[1..] == [pv[1]] && [pv[1]][1..] == [];
    assert Leaderboard.SortDesc(pv, ProductRevenue) == pv;
  }
}
