# Bazarplus: order statistics, guest cart and admin product rules

This project is a Dafny model of three pieces of the Bazarplus marketplace (a Next.js shop with
an admin panel). Each piece is modelled with its properties proved.

- **Order-statistics roll-up** (`order_statistics.dfy`, with `leaderboard.dfy`). This is the admin
  dashboard's statistics pass over the fetched orders. It has:
  - counters for total and windowed revenue and orders, in three windows: today, the last week
    and the last month;
  - status counters;
  - the per-store and per-product dictionaries, which are filled item by item;
  - a per-order set of touched stores;
  - the two top-10 leaderboards.

  The pass is modelled as it is written: the imperative method `LoadStatistics` keeps the counters,
  the dictionaries (`map`s with their insertion order) and the per-order store set. Its loop is
  proved against the specification functions `SummaryOf`, `StoreValues`, `ProductValues`,
  `TopStoresOf` and `TopProductsOf`. The properties are lemmas about those functions.
- **Storefront guest cart and product filter** (`storefront.dfy`). This covers the local paths of
  `addToCart` and `updateQuantity`, used for guests and when the backend is unreachable. It also
  covers:
  - the `guest_cart` storage encoding and its two read-back paths;
  - the search-and-category filter of the product grid.

  The transformations are pure functions on a cart of `(product, quantity)` entries. The class
  `Shop` holds the page state (cart, loaded products, expanded product) and the storage slot, and
  its methods assign the functions' results. The lemmas beside them prove:
  - one entry per product id with positive quantities;
  - "nothing else changes";
  - the storage round trip;
  - the filter's if-and-only-if.
- **Admin product search and form rules** (`product_admin.dfy`). This covers:
  - the case-insensitive search of the admin product list;
  - the form opened for a new or an existing product;
  - the record saved from the form, with the image URL trimmed or dropped and an empty category
    dropped.

Shared pieces:
- `wrappers.dfy`: `Option`.
- `seqs.dfy`: order-preserving `Filter` and subsequences.
- `js_string.dfy`: the JavaScript string operations the source uses (`toLowerCase`, `includes`,
  `trim`).

Conventions of the model:
- **Timestamps.** Dates are integers, and the three window cutoffs (`today`, `weekAgo`,
  `monthAgo`) are parameters.
- **Money and quantities.** These are unbounded integers.
- **Missing values.** A JavaScript value that the source tests for truthiness (`x || default`,
  `if (storeId)`) is the empty string when it is missing, where the source treats `null`,
  `undefined` and `''` alike. Other nullable fields are `Option`.

## Model

| member | source | states |
|---|---|---|
| OrderStatistics.LoadStatistics | app/admin/components/AdminStatisticsTab.tsx:115-247 | the counters, the store leaderboard and the product leaderboard are exactly `SummaryOf`, `TopStoresOf` and `TopProductsOf` of the input orders and the three cutoffs |
| OrderStatistics.TrackOrder | app/admin/components/AdminStatisticsTab.tsx:177-222 | after one more order, both dictionaries and their insertion orders describe all items of the orders so far. A store entry has its first-seen name, its revenue sum and its order count; a product entry has its name, quantity and revenue |
| OrderStatistics.TrackItems | app/admin/components/AdminStatisticsTab.tsx:178-208 | the item loop extends both dictionaries by exactly the order's items |
| OrderStatistics.TrackItem | app/admin/components/AdminStatisticsTab.tsx:178-208 | one pass of the item loop extends both dictionaries by that one item |
| OrderStatistics.TrackStoreItem | app/admin/components/AdminStatisticsTab.tsx:179-193 | an item with a store id creates that store's entry on first sight, with the item's store name or "Noma'lum do'kon", and adds `price * quantity` to its revenue. An item without one changes nothing |
| OrderStatistics.TrackProductItem | app/admin/components/AdminStatisticsTab.tsx:196-207 | an item with a product id creates that product's entry on first sight, named after the item's product or "Noma'lum mahsulot", and adds its quantity and `price * quantity`. An item without one changes nothing |
| OrderStatistics.UniqueStoresInOrder | app/admin/components/AdminStatisticsTab.tsx:211-216 | the set built from an order's items is exactly the set of non-empty store ids among them |
| OrderStatistics.CountOrderPerStore | app/admin/components/AdminStatisticsTab.tsx:217-221 | each store of the set that has an entry gets its order count raised by one, and every other entry is unchanged |
| OrderStatistics.TablesGiveValues | app/admin/components/AdminStatisticsTab.tsx:225-229 | the dictionaries' values in insertion order are `StoreValues` and `ProductValues` |
| OrderStatistics.KeySetMeaning | app/admin/components/AdminStatisticsTab.tsx:182-183 | a key has an entry if and only if it is non-empty and some item carries it |
| OrderStatistics.KeyOrderShape | app/admin/components/AdminStatisticsTab.tsx:183-190 | the insertion order lists every key with an entry exactly once |
| OrderStatistics.FirstWithKeyMeaning | app/admin/components/AdminStatisticsTab.tsx:183-190 | the item that creates an entry is the earliest item with that key, and there is none when no item has it |
| OrderStatistics.StoreEntrySnoc | app/admin/components/AdminStatisticsTab.tsx:182-193 | one more item changes only its own store's revenue, and creates the entry only when the store is new |
| OrderStatistics.ProductEntrySnoc | app/admin/components/AdminStatisticsTab.tsx:197-207 | one more item changes only its own product's quantity and revenue, and fixes the name only when the product is new |
| OrderStatistics.WindowOrdersNested | app/admin/components/AdminStatisticsTab.tsx:150-155 | for any orders, a later cutoff counts no more orders than an earlier one, and no window more than all orders |
| OrderStatistics.WindowRevenueNested | app/admin/components/AdminStatisticsTab.tsx:147-155 | with non-negative totals, a later cutoff's revenue is at most an earlier one's, and no window's exceeds the overall total |
| OrderStatistics.SummaryWindowsNested | app/admin/components/AdminStatisticsTab.tsx:127-155 | with `monthAgo <= weekAgo <= today`, today ≤ week ≤ month ≤ total order counts for any orders, and the same for revenue when totals are non-negative |
| OrderStatistics.StatusCountsBounded | app/admin/components/AdminStatisticsTab.tsx:158-174 | the five status counters sum to at most the number of orders, and to exactly that number when every status is one of the five |
| OrderStatistics.UnknownStatusCountsNothing | app/admin/components/AdminStatisticsTab.tsx:142-174 | an order with any other status adds to the totals and leaves all five status counters unchanged |
| OrderStatistics.StoreOrdersDedup | app/admin/components/AdminStatisticsTab.tsx:210-221 | an order raises a store's order count by exactly one when at least one of its items belongs to the store, however many do, and by zero otherwise |
| OrderStatistics.StoreOrdersBounded | app/admin/components/AdminStatisticsTab.tsx:217-221 | no store's order count exceeds the number of orders |
| OrderStatistics.SumForAppend | app/admin/components/AdminStatisticsTab.tsx:192 | a keyed revenue or quantity sum over the items of several orders is the sum of the per-order sums |
| OrderStatistics.KeyOrderFirstSeen | app/admin/components/AdminStatisticsTab.tsx:183-190 | every dictionary key is non-empty, and its entry was created by the earliest item carrying it |
| OrderStatistics.KeyOrderComplete | app/admin/components/AdminStatisticsTab.tsx:182-183 | every non-empty key among the items has an entry |
| OrderStatistics.KeyOrderLength | app/admin/components/AdminStatisticsTab.tsx:225 | the dictionary has one value per distinct key |
| OrderStatistics.StoreValuesShape | app/admin/components/AdminStatisticsTab.tsx:179-221 | there is one store value per distinct store id, and items without one create none. Each value has a non-empty store id, revenue equal to the `price * quantity` sum over that store's items, and an order count equal to the number of orders touching the store, never more than the number of orders |
| OrderStatistics.StoreNameFirstSeen | app/admin/components/AdminStatisticsTab.tsx:180-190 | a store's name is the store name (or default) of the first item of that store |
| OrderStatistics.ProductValuesShape | app/admin/components/AdminStatisticsTab.tsx:196-207 | there is one product value per distinct product id. Each has the quantity sum, the `price * quantity` sum, and the name of the first item of that product or "Noma'lum mahsulot" |
| OrderStatistics.TopStoresShape | app/admin/components/AdminStatisticsTab.tsx:225-227 | the store leaderboard holds min(10, number of stores) values, drawn from the dictionary and non-increasing in revenue. It is a prefix of the stable sort, so stores of equal revenue keep their first-seen order |
| OrderStatistics.TopProductsShape | app/admin/components/AdminStatisticsTab.tsx:229-231 | the same for the product leaderboard |
| OrderStatistics.EmptyOrders | app/admin/components/AdminStatisticsTab.tsx:117-139 | no orders give all-zero counters and two empty leaderboards |
| OrderStatistics.OrderWithoutItemsCounted | app/admin/components/AdminStatisticsTab.tsx:142-143 | an order without `order_items` still counts toward total orders and revenue |
| OrderStatistics.OrderWithoutItemsAddsNoEntries | app/admin/components/AdminStatisticsTab.tsx:177 | an order without `order_items` leaves the store and product values unchanged |
| OrderStatistics.ExampleSummary | app/admin/components/AdminStatisticsTab.tsx:141-174 | the two-order example: total revenue 150, two orders, one in the month window, one completed, one pending |
| OrderStatistics.ExampleAggregates | app/admin/components/AdminStatisticsTab.tsx:176-231 | the two-order example: store "S1" with revenue 110 in two orders, and the product leaderboard Apple (2, 60) ahead of Bread (1, 50) |
| Leaderboard.SortDescSorted | app/admin/components/AdminStatisticsTab.tsx:226 | sorting with `(a, b) => b.revenue - a.revenue` gives a non-increasing order |
| Leaderboard.SortDescPermutes | app/admin/components/AdminStatisticsTab.tsx:226 | the sort is a permutation of its input |
| Leaderboard.SortDescStable | app/admin/components/AdminStatisticsTab.tsx:226 | values of equal revenue keep their relative order |
| Leaderboard.TopShape | app/admin/components/AdminStatisticsTab.tsx:227 | `slice(0, 10)` keeps the first min(10, n) values, which stay sorted and come from the input |
| Storefront.FindIndex | app/client/page.tsx:197 | `cart.find` finds the first entry with the product id, and finds nothing exactly when no entry has it |
| Storefront.FindProduct | app/client/page.tsx:257 | `products.find` returns the first product with that id, and nothing exactly when none has it |
| Storefront.AddToCartEffect | app/client/page.tsx:197-208 | an existing product's entry alone is incremented by one, with the length and every other entry unchanged; a new product is appended with quantity 1. The cart stays well formed and its count grows by one |
| Storefront.AdjustEffect | app/client/page.tsx:265-308 | a new quantity ≤ 0 removes the entry and keeps the rest in order; a positive one changes that entry's quantity alone. The cart stays well formed, and its count changes accordingly |
| Storefront.UpdateQuantityEffect | app/client/page.tsx:254-263 | a product in the cart is adjusted by `delta`. A product not in the cart is appended with quantity 1 exactly when `delta > 0` and it is among the loaded products; otherwise the cart is unchanged |
| Storefront.UpdateQuantityFallbackEffect | app/client/page.tsx:320-334 | on the fallback path a product not in the cart leaves it unchanged, and the cart shrinks exactly when the entry is removed |
| Storefront.BumpAt | app/client/page.tsx:201-205 | with unique ids the increment `map` touches the matching entry only |
| Storefront.WithQuantityAt | app/client/page.tsx:304-308 | with unique ids the quantity `map` touches the matching entry only |
| Storefront.WithoutAt | app/client/page.tsx:276 | with unique ids the `filter` removes exactly the matching entry |
| Storefront.CartCountReplaceAt | app/cart-context.tsx:48 | replacing one entry changes the sum of quantities by the difference of the two quantities |
| Storefront.CartCountRemoveAt | app/cart-context.tsx:48 | removing one entry lowers the sum of quantities by its quantity |
| Storefront.DeserializeSerialize | app/client/page.tsx:154-161 | reading back the written `guest_cart` records on the fallback path gives the same cart |
| Storefront.SerializeDeserialize | app/client/page.tsx:211-216 | records whose `product_id` is their product's id are exactly what their decoded cart would write |
| Storefront.SerializeWellFormed | app/client/page.tsx:211-216 | the records written for a well-formed cart have `product_id` equal to the product's id, unique ids and positive quantities |
| Storefront.DeserializeWellFormed | app/client/page.tsx:158-161 | the fallback read-back of well-formed records is a well-formed cart |
| Storefront.JoinSavedMeaning | app/client/page.tsx:131-143 | the join keeps exactly the records whose product was fetched, in order and with their quantities, each with its fetched product and the store name or "Noma'lum do'kon" |
| Storefront.JoinSavedKeepsAll | app/client/page.tsx:131-143 | when every record's product was fetched, nothing is dropped |
| Storefront.JoinSavedFrom | app/client/page.tsx:139 | every joined entry has the product id and quantity of a stored record |
| Storefront.JoinSavedWellFormed | app/client/page.tsx:131-143 | the join of well-formed records is a well-formed cart |
| Storefront.FilteredProductsMeaning | app/client/page.tsx:350-358 | a product is shown if and only if the lower-cased term occurs in its lower-cased name or description and the category is unset or equal to its own. The result keeps the products' order |
| Storefront.FilteredProductsEmptySearch | app/client/page.tsx:350-358 | an empty term with no category shows every product |
| Storefront.Shop.constructor | app/client/page.tsx:29-35 | an empty cart, nothing expanded, the given products and stored slot |
| Storefront.Shop.AddToCart | app/client/page.tsx:195-241 | the cart becomes the local `addToCart` result, its count grows by one, and it is written to the slot as well-formed records |
| Storefront.Shop.UpdateQuantity | app/client/page.tsx:254-317 | the cart becomes the guest `updateQuantity` result and is written to the slot whenever it changes. A removed product's counter collapses if it was the expanded one |
| Storefront.Shop.UpdateQuantityFallback | app/client/page.tsx:320-344 | the cart becomes the fallback result and is written when the product was in it. A removal always collapses the expanded counter |
| Storefront.Shop.LoadGuestCart | app/client/page.tsx:117-145 | with a non-empty slot and fetched rows the cart becomes the join, and otherwise stays |
| Storefront.Shop.LoadFallbackCart | app/client/page.tsx:154-161 | with a stored slot the cart becomes its records read back as `{product, quantity}` |
| ProductAdmin.SearchEmptyTerm | app/admin/components/ProductsManagementTab.tsx:56-57 | an empty search term shows the whole list |
| ProductAdmin.SearchMeaning | app/admin/components/ProductsManagementTab.tsx:49-55 | with a non-empty term a product is shown if and only if the lower-cased term occurs in its lower-cased name, its description when present or its store name when present. The list keeps its order |
| ProductAdmin.SearchIgnoresTermCase | app/admin/components/ProductsManagementTab.tsx:50-53 | lower-casing the term does not change the list |
| ProductAdmin.NewForm | app/admin/components/ProductsManagementTab.tsx:126-137 | a new-product form has empty text fields and is active, with the first store's id, or the empty string when there are no stores |
| ProductAdmin.NormalizeCategory | app/admin/components/ProductsManagementTab.tsx:162 | the saved category is none exactly when the form value is empty, and otherwise the value itself |
| ProductAdmin.NormalizeImageUrlMeaning | app/admin/components/ProductsManagementTab.tsx:148-150 | the saved image URL is none exactly when the value is empty or white space only. Otherwise it is the trimmed value: a non-empty slice with no white space at either end, with only white space removed around it |
| ProductAdmin.NormalizeImageUrlIdempotent | app/admin/components/ProductsManagementTab.tsx:148-150 | normalising an already saved URL again gives the same result |
| ProductAdmin.SaveNewForm | app/admin/components/ProductsManagementTab.tsx:126-164 | an unedited new form saves empty text, no image, no category, active, in the first store |
| ProductAdmin.EditThenSave | app/admin/components/ProductsManagementTab.tsx:116-164 | opening a product and saving keeps its name, store and active flag. A missing description becomes the empty string, a missing or empty category none, and the image URL its normalised form; saving the result once more changes nothing |
| JsString.ToLowerCase | app/client/page.tsx:352-353 | lower-casing keeps the length and maps every character separately |
| JsString.IncludesMeaning | app/client/page.tsx:352-353 | `includes` holds exactly when the term occurs at some position |
| JsString.TrimShape | app/admin/components/ProductsManagementTab.tsx:148-149 | `trim` returns a slice with only white space outside it and none at either end |
| JsString.TrimIdempotent | app/admin/components/ProductsManagementTab.tsx:148-149 | trimming twice is trimming once |
| JsString.TrimEmptyIffBlank | app/admin/components/ProductsManagementTab.tsx:148 | `trim() !== ''` fails exactly for strings made only of white space |

## Left out

- All backend calls. This covers every Supabase query, insert, update, delete and the auth
  `getUser`. They are network I/O. Their results enter the model as parameters: the fetched
  orders, the fetched product rows of the guest cart, and the loaded product list.
- The authenticated paths of `addToCart`, `updateQuantity` and `loadCart` in app/client/page.tsx.
  They write to and re-read the `cart_items` table. Only the guest and fallback list
  transformations are modelled.
- React state, effects, events (`cartUpdated`) and rendering. State changes are assignments in the
  `Shop` methods.
- `Date` arithmetic. This covers `setHours`, `setDate`, the month rollover of `setMonth` and the
  local time zone. The cutoffs are integer parameters, as are the order timestamps.
- OrderStatistics.LoadStatistics: amounts and quantities are unbounded integers. The model has no
  `parseFloat`/`parseInt` of the item fields, no floating point and no NaN from malformed values.
- OrderStatistics.LoadStatistics: `Object.values` is modelled as insertion order. JavaScript lists
  integer-like keys first; the ids are UUIDs, so the difference is not modelled.
- OrderStatistics.LoadStatistics: the user, store and product counts of the statistics record come
  from separate queries and are not part of the roll-up.
- JsString.ToLowerCase: covers ASCII, Latin-1 and the Cyrillic block U+0400-U+04FF, including the
  Uzbek letters Ғ, Қ, Ҳ and Ў. Other scripts (Cyrillic Supplement, Greek, Latin Extended and the
  rest), and the Unicode special cases that change length, are left unchanged.
- JSON encoding and parse failures of the `guest_cart` slot. The slot holds the records
  themselves, and a failed parse (which the source catches, leaving the cart as it was) is not
  modelled.
- Storefront.Shop.LoadFallbackCart: keeps the cart well formed only for stored records as the
  handlers write them, for the same reason: a slot edited by other code is read back as it is.
- Storefront.Shop.LoadGuestCart: keeps the cart well formed only for stored records as the handlers
  write them. A slot edited by other code may hold duplicate ids, and the source then loads
  duplicates.
- Storefront.FilteredProducts: the description is a plain string. In the source a product row with
  a null description makes `p.description.toLowerCase()` throw whenever the term is not found in the
  name; that crash path is not modelled.
- `formatCurrency` and number formatting: library formatting.
- The price and stock fields of the admin product form. Their `toString` and
  `parseFloat`/`parseInt` round trip is string/number conversion.
- The database write of `saveProduct` and the product list reload after it. `loadProducts` on the
  storefront, including its store-name default, is also not part of this model.
- Concurrency between the asynchronous handlers, such as overlapping clicks. Each handler is
  modelled as one atomic step on the current state.
