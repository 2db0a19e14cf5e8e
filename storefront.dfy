/**
 * The storefront's guest cart and product filter (app/client/page.tsx).
 *
 * The cart is a list of `(product, quantity)` entries. The local paths of `addToCart` and
 * `updateQuantity` (the guest path and the path taken when the backend is unreachable) are pure
 * list transformations; the handlers replace the cart with their result and write it to the
 * `guest_cart` storage slot as `{product_id, product, quantity}` records. The class `Shop` at the
 * end holds that state and its methods assign the results of the functions below.
 */
module Storefront {
  import opened Wrappers
  import opened Labels
  import Seqs
  import JsString


  datatype Product = Product(
    id: string,
    name: string,
    description: string,
    price: int,
    imageUrl: Option<string>,
    storeName: string,
    storeId: string,
    stock: int,
    categoryId: Option<string>)

  datatype CartItem = CartItem(product: Product, quantity: int)

  /** One record of the `guest_cart` storage slot. */
  datatype SavedItem = SavedItem(productId: string, product: Product, quantity: int)

  // ---------------------------------------------------------------------------
  // Lookups

  /** `cart.find(item => item.product.id === id)`, as the position of the entry found. */
  function FindIndex(cart: seq<CartItem>, id: string): (r: Option<nat>)
    ensures r.Some? ==> r.value < |cart| && cart[r.value].product.id == id
                        && forall j :: 0 <= j < r.value ==> cart[j].product.id != id
    ensures r.None? <==> forall j :: 0 <= j < |cart| ==> cart[j].product.id != id
  {
    if |cart| == 0 then None
    else if cart[0].product.id == id then Some(0)
    else match FindIndex(cart[1..], id)
         case Some(j) => Some(j + 1)
         case None => None
  }

  /** `products.find(p => p.id === id)`. */
  function FindProduct(products: seq<Product>, id: string): (r: Option<Product>)
    ensures r.Some? ==> r.value in products && r.value.id == id
    ensures r.Some? ==> exists j :: 0 <= j < |products| && products[j] == r.value
                                    && forall k :: 0 <= k < j ==> products[k].id != id
    ensures r.None? <==> forall j :: 0 <= j < |products| ==> products[j].id != id
  {
    if |products| == 0 then None
    else if products[0].id == id then Some(products[0])
    else FindProduct(products[1..], id)
  }

  // ---------------------------------------------------------------------------
  // Cart invariants

  predicate UniqueIds(cart: seq<CartItem>) {
    forall i, j :: 0 <= i < j < |cart| ==> cart[i].product.id != cart[j].product.id
  }

  predicate PositiveQuantities(cart: seq<CartItem>) {
    forall i :: 0 <= i < |cart| ==> cart[i].quantity >= 1
  }

  /** One entry per product id, every quantity at least 1. */
  predicate WellFormed(cart: seq<CartItem>) {
    UniqueIds(cart) && PositiveQuantities(cart)
  }

  /** `cartCount`: the sum of the quantities (app/cart-context.tsx). */
  function CartCount(cart: seq<CartItem>): int {
    if |cart| == 0 then 0 else cart[0].quantity + CartCount(cart[1..])
  }

  // ---------------------------------------------------------------------------
  // The cart transformations

  /** `cart.map(item => item.product.id === id ? {...item, quantity: item.quantity + 1} : item)` */
  function Bump(cart: seq<CartItem>, id: string): seq<CartItem> {
    seq(|cart|, i requires 0 <= i < |cart| =>
      if cart[i].product.id == id then cart[i].(quantity := cart[i].quantity + 1) else cart[i])
  }

  /** `cart.map(item => item.product.id === id ? {...item, quantity: q} : item)` */
  function WithQuantity(cart: seq<CartItem>, id: string, q: int): seq<CartItem> {
    seq(|cart|, i requires 0 <= i < |cart| =>
      if cart[i].product.id == id then cart[i].(quantity := q) else cart[i])
  }

  function OtherProduct(id: string): CartItem -> bool {
    (c: CartItem) => c.product.id != id
  }

  /** `cart.filter(item => item.product.id !== id)` */
  function Without(cart: seq<CartItem>, id: string): seq<CartItem> {
    Seqs.Filter(cart, OtherProduct(id))
  }

  /** The local `addToCart`: increment the entry of `p`, or append it with quantity 1. */
  function CartAfterAdd(cart: seq<CartItem>, p: Product): seq<CartItem> {
    if FindIndex(cart, p.id).Some? then Bump(cart, p.id) else cart + [CartItem(p, 1)]
  }

  /** Set the found entry to `q`, or drop it when `q <= 0`. */
  function Adjust(cart: seq<CartItem>, id: string, q: int): seq<CartItem> {
    if q <= 0 then Without(cart, id) else WithQuantity(cart, id, q)
  }

  /** The guest path of `updateQuantity`: a product not in the cart is added through `addToCart`
      when `delta > 0` and the product is among the loaded products. */
  function CartAfterUpdate(cart: seq<CartItem>, products: seq<Product>, id: string, delta: int): seq<CartItem> {
    match FindIndex(cart, id)
    case Some(j) => Adjust(cart, id, cart[j].quantity + delta)
    case None =>
      match FindProduct(products, id)
      case Some(p) => if delta > 0 then CartAfterAdd(cart, p) else cart
      case None => cart
  }

  /** The fallback path of `updateQuantity`: a product not in the cart changes nothing. */
  function CartAfterFallbackUpdate(cart: seq<CartItem>, id: string, delta: int): seq<CartItem> {
    match FindIndex(cart, id)
    case Some(j) => Adjust(cart, id, cart[j].quantity + delta)
    case None => cart
  }

  /** Whether `updateQuantity` removes the entry of `id` (which collapses its counter). */
  predicate Removes(cart: seq<CartItem>, id: string, delta: int) {
    match FindIndex(cart, id)
    case Some(j) => cart[j].quantity + delta <= 0
    case None => false
  }

  // ---------------------------------------------------------------------------
  // Storage encoding

  /** The records written to `guest_cart`. */
  function Serialize(cart: seq<CartItem>): (r: seq<SavedItem>)
    ensures |r| == |cart|
  {
    seq(|cart|, i requires 0 <= i < |cart| => SavedItem(cart[i].product.id, cart[i].product, cart[i].quantity))
  }

  /** Reading `guest_cart` back on the fallback path: `{product, quantity}` of each record. */
  function Deserialize(saved: seq<SavedItem>): (r: seq<CartItem>)
    ensures |r| == |saved|
  {
    seq(|saved|, i requires 0 <= i < |saved| => CartItem(saved[i].product, saved[i].quantity))
  }

  /** What the handlers write: every record's `product_id` is its product's id, ids are unique
      and quantities positive. */
  predicate SavedWellFormed(saved: seq<SavedItem>) {
    && (forall i :: 0 <= i < |saved| ==> saved[i].productId == saved[i].product.id && saved[i].quantity >= 1)
    && (forall i, j :: 0 <= i < j < |saved| ==> saved[i].productId != saved[j].productId)
  }

  /** A fetched product row with its store's name, or "Noma'lum do'kon" when it has none. */
  function WithStoreName(p: Product): Product {
    p.(storeName := if p.storeName != "" then p.storeName else UnknownStore)
  }

  function IsFetched(fetched: seq<Product>): SavedItem -> bool {
    (s: SavedItem) => FindProduct(fetched, s.productId).Some?
  }

  /** The guest-cart load: each saved record is matched with the fetched product of its
      `product_id`; records without one are dropped. */
  function JoinSaved(saved: seq<SavedItem>, fetched: seq<Product>): seq<CartItem> {
    if |saved| == 0 then []
    else
      var rest := JoinSaved(saved[1..], fetched);
      match FindProduct(fetched, saved[0].productId)
      case Some(p) => [CartItem(WithStoreName(p), saved[0].quantity)] + rest
      case None => rest
  }

  // ---------------------------------------------------------------------------
  // The product filter

  /** Search and category test of `filteredProducts`. */
  function Matches(term: string, category: Option<string>): Product -> bool {
    (p: Product) =>
      (JsString.Includes(JsString.ToLowerCase(p.name), JsString.ToLowerCase(term))
       || JsString.Includes(JsString.ToLowerCase(p.description), JsString.ToLowerCase(term)))
      && (category.None? || p.categoryId == category)
  }

  function FilteredProducts(products: seq<Product>, term: string, category: Option<string>): seq<Product> {
    Seqs.Filter(products, Matches(term, category))
  }

  // ---------------------------------------------------------------------------
  // Properties

  /** Replacing the entry at `j` keeps the rest of the cart in place. */
  function ReplaceAt(cart: seq<CartItem>, j: nat, x: CartItem): (r: seq<CartItem>)
    requires j < |cart|
    ensures |r| == |cart| && r[j] == x && forall k :: 0 <= k < |cart| && k != j ==> r[k] == cart[k]
  {
    cart[..j] + [x] + cart[j + 1..]
  }

  /** With unique ids, the transformations keyed by the id at `j` touch that entry alone. */
  lemma BumpAt(cart: seq<CartItem>, j: nat)
    requires UniqueIds(cart) && j < |cart|
    ensures Bump(cart, cart[j].product.id) == ReplaceAt(cart, j, cart[j].(quantity := cart[j].quantity + 1))
  {
  }

  lemma WithQuantityAt(cart: seq<CartItem>, j: nat, q: int)
    requires UniqueIds(cart) && j < |cart|
    ensures WithQuantity(cart, cart[j].product.id, q) == ReplaceAt(cart, j, cart[j].(quantity := q))
  {
  }

  lemma WithoutAt(cart: seq<CartItem>, j: nat)
    requires UniqueIds(cart) && j < |cart|
    ensures Without(cart, cart[j].product.id) == cart[..j] + cart[j + 1..]
  {
    var keep := OtherProduct(cart[j].product.id);
    var a, b := cart[..j], cart[j + 1..];
    assert cart == a + [cart[j]] + b;
    forall x | x in a ensures keep(x) {
      var k :| 0 <= k < |a| && a[k] == x;
      assert a[k] == cart[k];
    }
    forall x | x in b ensures keep(x) {
      var k :| 0 <= k < |b| && b[k] == x;
      assert b[k] == cart[j + 1 + k];
    }
    Seqs.FilterDropOne(a, cart[j], b, keep);
  }

  lemma {:induction false} CartCountAppend(a: seq<CartItem>, b: seq<CartItem>)
    ensures CartCount(a + b) == CartCount(a) + CartCount(b)
  {
    if |a| == 0 {
      assert a + b == b;
    } else {
      assert (a + b)[0] == a[0];
      assert (a + b)[1..] == a[1..] + b;
      CartCountAppend(a[1..], b);
    }
  }

  /** The count of a cart split around one entry. */
  lemma CartCountSplit(a: seq<CartItem>, x: CartItem, b: seq<CartItem>)
    ensures CartCount(a + [x] + b) == CartCount(a) + x.quantity + CartCount(b)
  {
    CartCountAppend(a + [x], b);
    CartCountAppend(a, [x]);
    assert CartCount([x]) == x.quantity by { assert [x][1..] == []; }
  }

  /** Replacing one entry changes the cart count by the difference in quantity. */
  lemma CartCountReplaceAt(cart: seq<CartItem>, j: nat, x: CartItem)
    requires j < |cart|
    ensures CartCount(ReplaceAt(cart, j, x)) == CartCount(cart) - cart[j].quantity + x.quantity
  {
    Seqs.SplitAt(cart, j);
    CartCountSplit(cart[..j], cart[j], cart[j + 1..]);
    CartCountSplit(cart[..j], x, cart[j + 1..]);
  }

  /** Removing one entry lowers the cart count by its quantity. */
  lemma CartCountRemoveAt(cart: seq<CartItem>, j: nat)
    requires j < |cart|
    ensures CartCount(cart[..j] + cart[j + 1..]) == CartCount(cart) - cart[j].quantity
  {
    Seqs.SplitAt(cart, j);
    CartCountSplit(cart[..j], cart[j], cart[j + 1..]);
    CartCountAppend(cart[..j], cart[j + 1..]);
  }

  lemma ReplaceAtWellFormed(cart: seq<CartItem>, j: nat, x: CartItem)
    requires WellFormed(cart) && j < |cart| && x.product.id == cart[j].product.id && x.quantity >= 1
    ensures WellFormed(ReplaceAt(cart, j, x))
  {
  }

  lemma RemoveAtWellFormed(cart: seq<CartItem>, j: nat)
    requires WellFormed(cart) && j < |cart|
    ensures WellFormed(cart[..j] + cart[j + 1..])
  {
    var r := cart[..j] + cart[j + 1..];
    assert forall a :: 0 <= a < |r| ==> r[a] == cart[if a < j then a else a + 1];
  }

  /** Adding a product already in the cart increments that entry alone; adding a new one appends
      it with quantity 1. Either way the cart count grows by one and the cart stays well formed. */
  lemma AddToCartEffect(cart: seq<CartItem>, p: Product)
    requires WellFormed(cart)
    ensures WellFormed(CartAfterAdd(cart, p))
    ensures CartCount(CartAfterAdd(cart, p)) == CartCount(cart) + 1
    ensures match FindIndex(cart, p.id)
            case Some(j) => CartAfterAdd(cart, p) == ReplaceAt(cart, j, cart[j].(quantity := cart[j].quantity + 1))
            case None => CartAfterAdd(cart, p) == cart + [CartItem(p, 1)]
  {
    match FindIndex(cart, p.id)
    case Some(j) =>
      var x := cart[j].(quantity := cart[j].quantity + 1);
      assert cart[j].product.id == p.id;
      BumpAt(cart, j);
      assert CartAfterAdd(cart, p) == Bump(cart, p.id) == ReplaceAt(cart, j, x);
      CartCountReplaceAt(cart, j, x);
      ReplaceAtWellFormed(cart, j, x);
    case None =>
      assert CartAfterAdd(cart, p) == cart + [CartItem(p, 1)];
      CartCountAppend(cart, [CartItem(p, 1)]);
      assert CartCount([CartItem(p, 1)]) == 1 by { assert [CartItem(p, 1)][1..] == []; }
  }

  /** Changing the quantity of an entry in the cart: a new quantity `q <= 0` removes the entry and
      keeps the others in order; otherwise only that entry's quantity becomes `q`. */
  lemma AdjustEffect(cart: seq<CartItem>, j: nat, q: int)
    requires WellFormed(cart) && j < |cart|
    ensures var r := Adjust(cart, cart[j].product.id, q);
            && WellFormed(r)
            && (q <= 0 ==> r == cart[..j] + cart[j + 1..] && CartCount(r) == CartCount(cart) - cart[j].quantity)
            && (q > 0 ==> r == ReplaceAt(cart, j, cart[j].(quantity := q))
                          && CartCount(r) == CartCount(cart) - cart[j].quantity + q)
  {
    if q <= 0 {
      CartCountRemoveAt(cart, j);
      WithoutAt(cart, j);
      RemoveAtWellFormed(cart, j);
    } else {
      CartCountReplaceAt(cart, j, cart[j].(quantity := q));
      WithQuantityAt(cart, j, q);
      ReplaceAtWellFormed(cart, j, cart[j].(quantity := q));
    }
  }

  /** `updateQuantity` on the guest path: an entry in the cart is adjusted by `delta`; a product
      not in the cart is appended with quantity 1 exactly when `delta > 0` and it is among the
      loaded products, and otherwise the cart is unchanged. The cart stays well formed. */
  lemma UpdateQuantityEffect(cart: seq<CartItem>, products: seq<Product>, id: string, delta: int)
    requires WellFormed(cart)
    ensures WellFormed(CartAfterUpdate(cart, products, id, delta))
    ensures match FindIndex(cart, id)
            case Some(j) => CartAfterUpdate(cart, products, id, delta) == Adjust(cart, id, cart[j].quantity + delta)
            case None =>
              CartAfterUpdate(cart, products, id, delta) ==
                (if delta > 0 && FindProduct(products, id).Some?
                 then cart + [CartItem(FindProduct(products, id).value, 1)] else cart)
  {
    var r := CartAfterUpdate(cart, products, id, delta);
    match FindIndex(cart, id)
    case Some(j) =>
      assert cart[j].product.id == id;
      AdjustEffect(cart, j, cart[j].quantity + delta);
      assert r == Adjust(cart, id, cart[j].quantity + delta);
    case None =>
      match FindProduct(products, id)
      case Some(p) =>
        if delta > 0 {
          AddToCartEffect(cart, p);
          assert r == CartAfterAdd(cart, p) == cart + [CartItem(p, 1)];
        }
      case None =>
  }

  /** `updateQuantity` on the fallback path: the same for entries in the cart, and no change
      at all for a product that is not in it. */
  lemma UpdateQuantityFallbackEffect(cart: seq<CartItem>, id: string, delta: int)
    requires WellFormed(cart)
    ensures var r := CartAfterFallbackUpdate(cart, id, delta);
            && WellFormed(r)
            && (FindIndex(cart, id).None? ==> r == cart)
            && (Removes(cart, id, delta) <==> |r| < |cart|)
  {
    var r := CartAfterFallbackUpdate(cart, id, delta);
    match FindIndex(cart, id)
    case Some(j) =>
      assert cart[j].product.id == id;
      AdjustEffect(cart, j, cart[j].quantity + delta);
      assert r == Adjust(cart, id, cart[j].quantity + delta);
    case None =>
  }

  /** Reading back what the handlers wrote gives the same cart. */
  lemma DeserializeSerialize(cart: seq<CartItem>)
    ensures Deserialize(Serialize(cart)) == cart
  {
  }

  /** And records whose `product_id` is their product's id are exactly those the cart they decode
      to would write. */
  lemma SerializeDeserialize(saved: seq<SavedItem>)
    requires forall i :: 0 <= i < |saved| ==> saved[i].productId == saved[i].product.id
    ensures Serialize(Deserialize(saved)) == saved
  {
  }

  /** The records written for a well-formed cart are well formed, and decode to a well-formed cart. */
  lemma SerializeWellFormed(cart: seq<CartItem>)
    requires WellFormed(cart)
    ensures SavedWellFormed(Serialize(cart))
  {
  }

  lemma DeserializeWellFormed(saved: seq<SavedItem>)
    requires SavedWellFormed(saved)
    ensures WellFormed(Deserialize(saved))
  {
  }

  /** Entry `c` of the join is record `s` paired with the fetched product of its id. */
  predicate JoinedFrom(c: CartItem, s: SavedItem, fetched: seq<Product>) {
    && FindProduct(fetched, s.productId).Some?
    && c.product == WithStoreName(FindProduct(fetched, s.productId).value)
    && c.product.id == s.productId
    && c.quantity == s.quantity
  }

  /** Pairing one more entry with one more record in front keeps the pairing entry by entry. */
  lemma JoinedFromCons(c: CartItem, rest: seq<CartItem>, x: SavedItem, kept: seq<SavedItem>, fetched: seq<Product>)
    requires |rest| == |kept| && JoinedFrom(c, x, fetched)
    requires forall i :: 0 <= i < |rest| ==> JoinedFrom(rest[i], kept[i], fetched)
    ensures forall i :: 0 <= i < |rest| + 1 ==> JoinedFrom(([c] + rest)[i], ([x] + kept)[i], fetched)
  {
    forall i | 0 <= i < |rest| + 1 ensures JoinedFrom(([c] + rest)[i], ([x] + kept)[i], fetched) {
      if i > 0 {
        assert ([c] + rest)[i] == rest[i - 1];
        assert ([x] + kept)[i] == kept[i - 1];
      }
    }
  }

  /** The join keeps exactly the records whose product was fetched, in their order and with their
      quantities; each is paired with the fetched product of its id. */
  lemma {:induction false} JoinSavedMeaning(saved: seq<SavedItem>, fetched: seq<Product>)
    ensures |JoinSaved(saved, fetched)| == |Seqs.Filter(saved, IsFetched(fetched))|
    ensures forall i :: 0 <= i < |JoinSaved(saved, fetched)| ==>
              JoinedFrom(JoinSaved(saved, fetched)[i], Seqs.Filter(saved, IsFetched(fetched))[i], fetched)
  {
    if |saved| > 0 {
      JoinSavedMeaning(saved[1..], fetched);
      var r, kept := JoinSaved(saved, fetched), Seqs.Filter(saved, IsFetched(fetched));
      var rest, keptRest := JoinSaved(saved[1..], fetched), Seqs.Filter(saved[1..], IsFetched(fetched));
      match FindProduct(fetched, saved[0].productId)
      case Some(p) =>
        assert IsFetched(fetched)(saved[0]);
        var c := CartItem(WithStoreName(p), saved[0].quantity);
        assert r == [c] + rest;
        assert kept == [saved[0]] + keptRest;
        JoinedFromCons(c, rest, saved[0], keptRest, fetched);
      case None =>
        assert !IsFetched(fetched)(saved[0]);
        assert r == rest;
        assert kept == keptRest;
    }
  }

  /** When every record's product was fetched, nothing is dropped. */
  lemma JoinSavedKeepsAll(saved: seq<SavedItem>, fetched: seq<Product>)
    requires forall i :: 0 <= i < |saved| ==> FindProduct(fetched, saved[i].productId).Some?
    ensures |JoinSaved(saved, fetched)| == |saved|
  {
    Seqs.FilterKeepsAll(saved, IsFetched(fetched));
    JoinSavedMeaning(saved, fetched);
  }

  /** `c` has the product id and quantity of one of the saved records. */
  predicate FromSaved(c: CartItem, saved: seq<SavedItem>) {
    exists k :: 0 <= k < |saved| && c.product.id == saved[k].productId && c.quantity == saved[k].quantity
  }

  /** Every entry of the join comes from a saved record with the same product id and quantity. */
  lemma {:induction false} JoinSavedFrom(saved: seq<SavedItem>, fetched: seq<Product>)
    ensures forall i :: 0 <= i < |JoinSaved(saved, fetched)| ==> FromSaved(JoinSaved(saved, fetched)[i], saved)
  {
    if |saved| > 0 {
      var rest := JoinSaved(saved[1..], fetched);
      JoinSavedFrom(saved[1..], fetched);
      var r := JoinSaved(saved, fetched);
      var off := |r| - |rest|;
      assert forall i :: off <= i < |r| ==> r[i] == rest[i - off];
      forall i | 0 <= i < |r| ensures FromSaved(r[i], saved) {
        if i < off {
          assert r[i].product.id == saved[0].productId && r[i].quantity == saved[0].quantity;
        } else {
          var k :| 0 <= k < |saved[1..]| && rest[i - off].product.id == saved[1..][k].productId
                   && rest[i - off].quantity == saved[1..][k].quantity;
          assert saved[1..][k] == saved[k + 1];
        }
      }
    }
  }

  /** The join of a well-formed slot is a well-formed cart. */
  lemma SavedWellFormedTail(saved: seq<SavedItem>)
    requires SavedWellFormed(saved) && |saved| > 0
    ensures SavedWellFormed(saved[1..])
  {
    forall i | 0 <= i < |saved[1..]| ensures saved[1..][i] == saved[i + 1] { }
  }

  /** Putting an entry with a new id and a positive quantity in front keeps a cart well formed. */
  lemma ConsWellFormed(c: CartItem, rest: seq<CartItem>)
    requires WellFormed(rest) && c.quantity >= 1
    requires forall i :: 0 <= i < |rest| ==> rest[i].product.id != c.product.id
    ensures WellFormed([c] + rest)
  {
    var r := [c] + rest;
    assert forall i :: 1 <= i < |r| ==> r[i] == rest[i - 1];
  }

  /** No entry joined from `saved` carries an id that no record has. */
  lemma JoinSavedAvoids(saved: seq<SavedItem>, fetched: seq<Product>, id: string)
    requires forall k :: 0 <= k < |saved| ==> saved[k].productId != id
    ensures forall i :: 0 <= i < |JoinSaved(saved, fetched)| ==> JoinSaved(saved, fetched)[i].product.id != id
  {
    var rest := JoinSaved(saved, fetched);
    JoinSavedFrom(saved, fetched);
    forall i | 0 <= i < |rest| ensures rest[i].product.id != id {
      assert FromSaved(rest[i], saved);
    }
  }

  lemma {:induction false} JoinSavedWellFormed(saved: seq<SavedItem>, fetched: seq<Product>)
    requires SavedWellFormed(saved)
    ensures WellFormed(JoinSaved(saved, fetched))
  {
    if |saved| > 0 {
      var rest := JoinSaved(saved[1..], fetched);
      SavedWellFormedTail(saved);
      JoinSavedWellFormed(saved[1..], fetched);
      match FindProduct(fetched, saved[0].productId)
      case Some(p) =>
        forall k | 0 <= k < |saved[1..]| ensures saved[1..][k].productId != saved[0].productId {
          assert saved[1..][k] == saved[k + 1];
        }
        JoinSavedAvoids(saved[1..], fetched, saved[0].productId);
        ConsWellFormed(CartItem(WithStoreName(p), saved[0].quantity), rest);
      case None =>
    }
  }

  /** A product passes the filter exactly when the lower-cased term occurs in its lower-cased name
      or description and the selected category is unset or equal to its category; the result
      keeps the products' order. */
  lemma FilteredProductsMeaning(products: seq<Product>, term: string, category: Option<string>)
    ensures var r := FilteredProducts(products, term, category);
            && Seqs.Subsequence(r, products)
            && forall i :: 0 <= i < |products| ==>
                 (products[i] in r <==>
                    (JsString.Includes(JsString.ToLowerCase(products[i].name), JsString.ToLowerCase(term))
                     || JsString.Includes(JsString.ToLowerCase(products[i].description), JsString.ToLowerCase(term)))
                    && (category.None? || products[i].categoryId == category))
  {
    var r := FilteredProducts(products, term, category);
    forall i | 0 <= i < |products| && products[i] in r ensures Matches(term, category)(products[i]) {
      var k :| 0 <= k < |r| && r[k] == products[i];
    }
  }

  /** An empty search with no category keeps every product. */
  lemma FilteredProductsEmptySearch(products: seq<Product>)
    ensures FilteredProducts(products, "", None) == products
  {
    forall p | p in products ensures Matches("", None)(p) {
      JsString.IncludesEmpty(JsString.ToLowerCase(p.name));
    }
    Seqs.FilterKeepsAll(products, Matches("", None));
  }

  // ---------------------------------------------------------------------------
  // The page state

  /** The page's `products`, `cart` and `expandedProduct` state and the `guest_cart` storage slot. */
  class Shop {
    var products: seq<Product>
    var cart: seq<CartItem>
    var expanded: Option<string>
    var guestCart: Option<seq<SavedItem>>

    ghost predicate Valid()
      reads this
    {
      WellFormed(cart)
    }

    constructor (products: seq<Product>, stored: Option<seq<SavedItem>>)
      ensures Valid()
      ensures this.products == products && cart == [] && expanded == None && guestCart == stored
    {
      this.products := products;
      cart := [];
      expanded := None;
      guestCart := stored;
    }

    /** `addToCart` on the guest and fallback paths: new cart, written to storage. */
    method AddToCart(p: Product)
      requires Valid()
      modifies this
      ensures Valid()
      ensures cart == CartAfterAdd(old(cart), p)
      ensures CartCount(cart) == CartCount(old(cart)) + 1
      ensures guestCart == Some(Serialize(cart)) && SavedWellFormed(guestCart.value)
      ensures products == old(products) && expanded == old(expanded)
    {
      AddToCartEffect(cart, p);
      cart := CartAfterAdd(cart, p);
      SerializeWellFormed(cart);
      guestCart := Some(Serialize(cart));
    }

    /** `updateQuantity` on the guest path. Storage is written whenever the cart changes; the
        counter of a removed product is collapsed if it was the expanded one. */
    method UpdateQuantity(id: string, delta: int)
      requires Valid()
      modifies this
      ensures Valid()
      ensures cart == CartAfterUpdate(old(cart), old(products), id, delta)
      ensures guestCart == (if cart == old(cart) && FindIndex(old(cart), id).None? then old(guestCart)
                            else Some(Serialize(cart)))
      ensures expanded == (if Removes(old(cart), id, delta) && old(expanded) == Some(id) then None else old(expanded))
      ensures products == old(products)
    {
      var before := cart;
      UpdateQuantityEffect(before, products, id, delta);
      var next := before;
      var changed, removes := false, false;
      match FindIndex(before, id) {
        case Some(j) =>
          removes := before[j].quantity + delta <= 0;
          next := Adjust(before, id, before[j].quantity + delta);
          changed := true;
          assert next == CartAfterUpdate(before, products, id, delta);
        case None =>
          match FindProduct(products, id)
          case Some(p) =>
            if delta > 0 {
              next := CartAfterAdd(before, p);
              assert |next| == |before| + 1;
              changed := true;
            }
            assert next == CartAfterUpdate(before, products, id, delta);
          case None =>
            assert next == CartAfterUpdate(before, products, id, delta);
      }
      cart := next;
      if changed {
        guestCart := Some(Serialize(next));
      }
      if removes && expanded == Some(id) {
        expanded := None;
      }
    }

    /** `updateQuantity` on the fallback path: a removal always collapses the counter. */
    method UpdateQuantityFallback(id: string, delta: int)
      requires Valid()
      modifies this
      ensures Valid()
      ensures cart == CartAfterFallbackUpdate(old(cart), id, delta)
      ensures guestCart == (if FindIndex(old(cart), id).None? then old(guestCart) else Some(Serialize(cart)))
      ensures expanded == (if Removes(old(cart), id, delta) then None else old(expanded))
      ensures products == old(products)
    {
      var before := cart;
      UpdateQuantityFallbackEffect(before, id, delta);
      match FindIndex(before, id)
      case Some(j) =>
        var next := Adjust(before, id, before[j].quantity + delta);
        assert next == CartAfterFallbackUpdate(before, id, delta);
        assert Removes(before, id, delta) == (before[j].quantity + delta <= 0);
        cart := next;
        guestCart := Some(Serialize(next));
        if before[j].quantity + delta <= 0 {
          expanded := None;
        }
      case None =>
    }

    /** `loadCart` for a guest: with a non-empty stored cart and a product fetch that returned
        rows (`fetched`), the cart becomes the join; otherwise it is left as it was. The cart
        stays well formed when the stored records are as the handlers write them. */
    method LoadGuestCart(fetched: Option<seq<Product>>)
      requires Valid()
      modifies this
      ensures (old(guestCart).None? || SavedWellFormed(old(guestCart).value)) ==> Valid()
      ensures cart == (if old(guestCart).Some? && |old(guestCart).value| > 0 && fetched.Some?
                       then JoinSaved(old(guestCart).value, fetched.value) else old(cart))
      ensures products == old(products) && expanded == old(expanded) && guestCart == old(guestCart)
    {
      if guestCart.Some? && |guestCart.value| > 0 && fetched.Some? {
        if SavedWellFormed(guestCart.value) {
          JoinSavedWellFormed(guestCart.value, fetched.value);
        }
        cart := JoinSaved(guestCart.value, fetched.value);
      }
    }

    /** `loadCart` when the backend is unreachable: the stored records are read back as they are. */
    method LoadFallbackCart()
      requires Valid()
      modifies this
      ensures (old(guestCart).None? || SavedWellFormed(old(guestCart).value)) ==> Valid()
      ensures cart == (if old(guestCart).Some? then Deserialize(old(guestCart).value) else old(cart))
      ensures products == old(products) && expanded == old(expanded) && guestCart == old(guestCart)
    {
      if guestCart.Some? {
        if SavedWellFormed(guestCart.value) {
          DeserializeWellFormed(guestCart.value);
        }
        cart := Deserialize(guestCart.value);
      }
    }
  }
}
