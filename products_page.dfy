/**
 * The catalog page (app/products/page.tsx): the client-side search over the fetched
 * products and the add-to-cart handler that turns a product into a cart payload.
 */
module ProductsPage {
  import opened Types
  import opened Seqs
  import opened Text
  import opened CartSlice

  /** `product.title.toLowerCase().includes(searchQuery.toLowerCase())` */
  predicate TitleMatches(product: Product, query: string)
  {
    Includes(Lower(product.title), Lower(query))
  }

  /** `filteredProducts`: everything for a blank query, otherwise the products whose title matches. */
  function FilterProducts(products: seq<Product>, query: string): seq<Product>
  {
    if IsBlank(query) then products
    else Filter(products, (product: Product) => TitleMatches(product, query))
  }

  /** A blank query (empty or only whitespace) shows the whole catalog. */
  lemma FilterBlankQuery(products: seq<Product>, query: string)
    requires forall k :: 0 <= k < |query| ==> IsWhitespace(query[k])
    ensures FilterProducts(products, query) == products
  {
    BlankIffAllWhitespace(query);
  }

  /** The result keeps products of the catalog in their catalog order. */
  lemma FilterOrdered(products: seq<Product>, query: string)
    ensures IsSubsequence(FilterProducts(products, query), products)
  {
    if IsBlank(query) {
      SubsequenceReflexive(products);
    } else {
      FilterSpec(products, (product: Product) => TitleMatches(product, query));
    }
  }

  /**
   * For a query that is not blank, a product of the catalog is shown exactly when the
   * lower-cased query occurs in its lower-cased title.
   */
  lemma FilterSoundComplete(products: seq<Product>, query: string, k: nat)
    requires !IsBlank(query)
    requires k < |products|
    ensures products[k] in FilterProducts(products, query) <==>
            IsSubstring(Lower(products[k].title), Lower(query))
  {
    FilterSpec(products, (product: Product) => TitleMatches(product, query));
    IncludesIff(Lower(products[k].title), Lower(query));
  }

  /** Every product shown comes from the catalog and, unless the query is blank, matches it. */
  lemma FilterShownMatch(products: seq<Product>, query: string, k: nat)
    requires k < |FilterProducts(products, query)|
    ensures FilterProducts(products, query)[k] in products
    ensures !IsBlank(query) ==>
            IsSubstring(Lower(FilterProducts(products, query)[k].title), Lower(query))
  {
    FilterSpec(products, (product: Product) => TitleMatches(product, query));
    IncludesIff(Lower(FilterProducts(products, query)[k].title), Lower(query));
  }

  /** Queries equal up to letter case show the same products. */
  lemma FilterIgnoresCase(products: seq<Product>, a: string, b: string)
    requires Lower(a) == Lower(b)
    ensures FilterProducts(products, a) == FilterProducts(products, b)
  {
    BlankIgnoresCase(a, b);
    if !IsBlank(a) {
      FilterSameMatches(products, a, b);
    }
  }

  /** Lower-casing the query beforehand changes nothing. */
  lemma FilterLowerQuery(products: seq<Product>, query: string)
    ensures FilterProducts(products, Lower(query)) == FilterProducts(products, query)
  {
    LowerIdempotent(query);
    FilterIgnoresCase(products, Lower(query), query);
  }

  lemma {:induction false} FilterSameMatches(products: seq<Product>, a: string, b: string)
    requires Lower(a) == Lower(b)
    ensures Filter(products, (product: Product) => TitleMatches(product, a))
         == Filter(products, (product: Product) => TitleMatches(product, b))
  {
    if products != [] {
      FilterSameMatches(products[1..], a, b);
    }
  }

  /** Searching the search results again with the same query changes nothing. */
  lemma FilterIdempotentQuery(products: seq<Product>, query: string)
    ensures FilterProducts(FilterProducts(products, query), query) == FilterProducts(products, query)
  {
    if !IsBlank(query) {
      FilterIdempotent(products, (product: Product) => TitleMatches(product, query));
    }
  }

  /**
   * A query that is not blank is matched untrimmed: a query holding a whitespace
   * character never finds a product whose title has none.
   */
  lemma FilterUntrimmed(products: seq<Product>, query: string, k: nat, j: nat)
    requires !IsBlank(query)
    requires j < |query| && IsWhitespace(query[j])
    requires k < |products|
    requires forall m :: 0 <= m < |products[k].title| ==> !IsWhitespace(products[k].title[m])
    ensures products[k] !in FilterProducts(products, query)
  {
    FilterSoundComplete(products, query, k);
    WhitespaceMustOccur(products[k].title, query, j);
  }

  /** Filtering a two-product catalog with a query that is not blank. */
  lemma FilterTwo(first: Product, second: Product, query: string)
    requires !IsBlank(query)
    ensures FilterProducts([first, second], query)
         == (if TitleMatches(first, query) then [first] else [])
          + (if TitleMatches(second, query) then [second] else [])
  {
    var keep := (product: Product) => TitleMatches(product, query);
    assert [first, second][1..] == [second];
    assert [second][1..] == [];
    assert Filter([second], keep) == (if keep(second) then [second] else []);
  }

  lemma ShirtMatches(tee: Product, mug: Product)
    requires tee.title == "T-Shirt" && mug.title == "Mug"
    ensures TitleMatches(tee, "SHIRT") && !TitleMatches(mug, "SHIRT")
  {
    assert Lower("T-Shirt") == "t-shirt";
    assert Lower("SHIRT") == "shirt";
    assert "t-shirt"[1..][1..][..5] == "shirt";
    assert |Lower("Mug")| == 3;
  }

  /** Upper-case "SHIRT" finds "T-Shirt" and not "Mug". */
  lemma SearchExample(tee: Product, mug: Product, query: string)
    requires tee.title == "T-Shirt" && mug.title == "Mug" && query == "SHIRT"
    ensures FilterProducts([tee, mug], query) == [tee]
  {
    BlankIffAllWhitespace(query);
    assert !IsWhitespace(query[0]);
    ShirtMatches(tee, mug);
    FilterTwo(tee, mug, query);
  }

  // ---------------------------------------------------------------------------
  // handleAddToCart

  /** The `addToCart` payload built from a product: id, title, price and image. */
  function PayloadOf(product: Product): AddPayload
  {
    AddPayload(product.id, product.title, product.price, product.image)
  }

  /** `handleAddToCart`: dispatch `addToCart` with the product's payload (the toast is left out). */
  method HandleAddToCart(cart: CartStore, product: Product)
    modifies cart
    ensures cart.items == AddedItems(old(cart.items), PayloadOf(product))
    ensures cart.Consistent() && cart.Persisted()
    ensures old(WellFormed(cart.items)) ==> WellFormed(cart.items)
  {
    cart.AddToCart(PayloadOf(product));
  }

  /**
   * Adding a product not yet in the cart appends a line that copies its id, title,
   * price and image, with quantity 1, and nothing of its description, category or rating.
   */
  lemma AddProductNew(items: seq<CartItem>, product: Product)
    requires !HasId(items, product.id)
    ensures AddedItems(items, PayloadOf(product))
         == items + [CartItem(product.id, product.title, product.price, product.image, 1)]
  {
    AddNew(items, PayloadOf(product));
  }

  /**
   * Adding a product already in the cart keeps that line's stored title, price and image
   * even when the catalog now has different ones; only the quantity goes up.
   */
  lemma AddProductExisting(items: seq<CartItem>, product: Product, i: nat)
    requires i < |items| && items[i].id == product.id
    requires forall k :: 0 <= k < i ==> items[k].id != product.id
    ensures |AddedItems(items, PayloadOf(product))| == |items|
    ensures AddedItems(items, PayloadOf(product))[i]
         == CartItem(items[i].id, items[i].title, items[i].price, items[i].image, items[i].quantity + 1)
  {
    AddExisting(items, PayloadOf(product), i);
  }
}
