/**
 * The admin product list: its search filter, the form it opens for a new or an existing
 * product, and the record it saves from that form
 * (app/admin/components/ProductsManagementTab.tsx).
 */
module ProductAdmin {
  import opened Wrappers
  import Seqs
  import JsString

  /** A product row as the admin list loads it; `storeName` is the joined `stores.name`. */
  datatype Product = Product(
    id: string,
    name: string,
    description: Option<string>,
    imageUrl: Option<string>,
    storeId: string,
    isActive: bool,
    storeName: Option<string>,
    categoryId: Option<string>)

  datatype StoreOption = StoreOption(id: string, name: string)

  /** The text fields of the product form (price and stock are left out). */
  datatype Form = Form(
    name: string,
    description: string,
    imageUrl: string,
    storeId: string,
    categoryId: string,
    isActive: bool)

  /** The record sent to the `products` table. */
  datatype ProductData = ProductData(
    name: string,
    description: string,
    imageUrl: Option<string>,
    storeId: string,
    categoryId: Option<string>,
    isActive: bool)

  // ---------------------------------------------------------------------------
  // Search

  /** `s?.toLowerCase().includes(t)`: a missing field never matches. */
  predicate FieldIncludes(field: Option<string>, lowerTerm: string) {
    field.Some? && JsString.Includes(JsString.ToLowerCase(field.value), lowerTerm)
  }

  function MatchesTerm(term: string): Product -> bool {
    (p: Product) =>
      JsString.Includes(JsString.ToLowerCase(p.name), JsString.ToLowerCase(term))
      || FieldIncludes(p.description, JsString.ToLowerCase(term))
      || FieldIncludes(p.storeName, JsString.ToLowerCase(term))
  }

  /** The list shown for `term`: all products when the term is empty, the matching ones otherwise. */
  function SearchProducts(products: seq<Product>, term: string): seq<Product> {
    if term != "" then Seqs.Filter(products, MatchesTerm(term)) else products
  }

  /** With an empty term the whole list is shown. */
  lemma SearchEmptyTerm(products: seq<Product>)
    ensures SearchProducts(products, "") == products
  {
  }

  /** With a non-empty term a product is shown exactly when the lower-cased term occurs in its
      lower-cased name, description or store name; the list keeps its order. */
  lemma SearchMeaning(products: seq<Product>, term: string)
    requires term != ""
    ensures var r, t := SearchProducts(products, term), JsString.ToLowerCase(term);
            && Seqs.Subsequence(r, products)
            && forall i :: 0 <= i < |products| ==>
                 (products[i] in r <==>
                    JsString.Includes(JsString.ToLowerCase(products[i].name), t)
                    || (products[i].description.Some? && JsString.Includes(JsString.ToLowerCase(products[i].description.value), t))
                    || (products[i].storeName.Some? && JsString.Includes(JsString.ToLowerCase(products[i].storeName.value), t)))
  {
    var r := SearchProducts(products, term);
    forall i | 0 <= i < |products| && products[i] in r ensures MatchesTerm(term)(products[i]) {
      var k :| 0 <= k < |r| && r[k] == products[i];
    }
  }

  /** The search is case-insensitive: lower-casing the term does not change the list. */
  lemma SearchIgnoresTermCase(products: seq<Product>, term: string)
    ensures SearchProducts(products, JsString.ToLowerCase(term)) == SearchProducts(products, term)
  {
    var lower := JsString.ToLowerCase(term);
    assert JsString.ToLowerCase(lower) == lower by {
      forall i | 0 <= i < |lower| ensures JsString.ToLowerCase(lower)[i] == lower[i] {
        JsString.LowerCharIdempotent(term[i]);
      }
    }
    assert MatchesTerm(lower) == MatchesTerm(term);
  }

  // ---------------------------------------------------------------------------
  // The form

  /** `openForm()` for a new product: empty text, active, and the first store preselected. */
  function NewForm(stores: seq<StoreOption>): (f: Form)
    ensures f.name == "" && f.description == "" && f.imageUrl == "" && f.categoryId == ""
    ensures f.isActive
    ensures f.storeId == if |stores| > 0 then stores[0].id else ""
  {
    Form("", "", "", if |stores| > 0 && stores[0].id != "" then stores[0].id else "", "", true)
  }

  /** `openForm(product)` for an existing product: missing text becomes the empty string. */
  function EditForm(p: Product): Form {
    Form(p.name, p.description.GetOr(""), p.imageUrl.GetOr(""), p.storeId, p.categoryId.GetOr(""), p.isActive)
  }

  // ---------------------------------------------------------------------------
  // Saving

  /** The saved image URL: none for an empty or blank value, otherwise the trimmed value. */
  function NormalizeImageUrl(v: string): Option<string> {
    if v != "" && JsString.Trim(v) != "" then Some(JsString.Trim(v)) else None
  }

  /** The saved category: none for the empty string. */
  function NormalizeCategory(c: string): (r: Option<string>)
    ensures r.None? <==> c == ""
    ensures r.Some? ==> r.value == c
  {
    if c != "" then Some(c) else None
  }

  /** `productData` in `saveProduct`. */
  function SaveData(f: Form): ProductData {
    ProductData(f.name, f.description, NormalizeImageUrl(f.imageUrl), f.storeId, NormalizeCategory(f.categoryId), f.isActive)
  }

  /** The image URL is dropped exactly when the value is blank (white space only, or empty);
      otherwise it is kept trimmed: a non-empty slice of the value with white space removed
      from both ends only. */
  lemma NormalizeImageUrlMeaning(v: string)
    ensures NormalizeImageUrl(v).None? <==> forall i :: 0 <= i < |v| ==> JsString.IsWhiteSpace(v[i])
    ensures NormalizeImageUrl(v).Some? ==>
              var u := NormalizeImageUrl(v).value;
              && u == JsString.Trim(v)
              && |u| > 0 && !JsString.IsWhiteSpace(u[0]) && !JsString.IsWhiteSpace(u[|u| - 1])
              && exists a, b :: 0 <= a <= b <= |v| && u == v[a..b]
                                && (forall i :: 0 <= i < a ==> JsString.IsWhiteSpace(v[i]))
                                && (forall i :: b <= i < |v| ==> JsString.IsWhiteSpace(v[i]))
  {
    JsString.TrimEmptyIffBlank(v);
    JsString.TrimShape(v);
  }

  /** Saving an already-normalised URL again gives the same result. */
  lemma NormalizeImageUrlIdempotent(v: string)
    ensures NormalizeImageUrl(NormalizeImageUrl(v).GetOr("")) == NormalizeImageUrl(v)
  {
    if v != "" && JsString.Trim(v) != "" {
      JsString.TrimIdempotent(v);
    }
  }

  /** A new product saved without edits: empty name and description, no image, no category,
      active, in the first store. */
  lemma SaveNewForm(stores: seq<StoreOption>)
    ensures SaveData(NewForm(stores)) ==
              ProductData("", "", None, if |stores| > 0 then stores[0].id else "", None, true)
  {
  }

  /** Opening a product and saving it unchanged keeps its name, store and active flag; a missing
      description is saved as the empty string, a missing or empty category as none, and the
      image URL as its normalised form. Saving the result once more changes nothing. */
  lemma EditThenSave(p: Product)
    ensures var d := SaveData(EditForm(p));
            && d.name == p.name && d.storeId == p.storeId && d.isActive == p.isActive
            && d.description == (if p.description.Some? then p.description.value else "")
            && (d.categoryId.None? <==> p.categoryId.None? || p.categoryId == Some(""))
            && (d.categoryId.Some? ==> d.categoryId == p.categoryId)
            && d.imageUrl == NormalizeImageUrl(if p.imageUrl.Some? then p.imageUrl.value else "")
    ensures var d := SaveData(EditForm(p));
            var f := Form(d.name, d.description, d.imageUrl.GetOr(""), d.storeId, d.categoryId.GetOr(""), d.isActive);
            SaveData(f) == d
  {
    NormalizeImageUrlIdempotent(p.imageUrl.GetOr(""));
  }
}
