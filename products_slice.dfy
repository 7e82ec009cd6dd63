/**
 * The products slice (store/slices/products-slice.ts): the fetched catalog and its
 * loading/error status, driven by the three lifecycle actions of the `fetchProducts` thunk.
 */
module ProductsSlice {
  import opened Types

  /** The message the rejected reducer falls back to. */
  const DefaultError: string := "Failed to fetch products"

  /** How one `fetchProducts` request settled, as delivered to the reducers. */
  datatype FetchOutcome =
    | Fulfilled(payload: seq<Product>)
      /** `message` is `action.error.message`, which may be missing. */
    | Rejected(message: Option<string>)

  /** `action.error.message || "Failed to fetch products"`: a missing or empty message falls back. */
  function ErrorText(message: Option<string>): (r: string)
    ensures r != ""
    ensures message.Some? && message.value != "" ==> r == message.value
    ensures (message.None? || message.value == "") ==> r == DefaultError
  {
    match message
    case Some(text) => if text != "" then text else DefaultError
    case None => DefaultError
  }

  class ProductsStore {
    var products: seq<Product>
    var loading: bool
    var error: Option<string>

    /**
     * What every reachable state satisfies: while `loading` is set there is no error,
     * and an error, once set, is never the empty string. (Any request that settles clears
     * `loading`, so with overlapping requests another may still be in flight.)
     */
    ghost predicate Valid()
      reads this
    {
      (loading ==> error.None?) && (error.Some? ==> error.value != "")
    }

    /** `initialState` */
    constructor ()
      ensures products == [] && !loading && error == None
      ensures Valid()
    {
      products := [];
      loading := false;
      error := None;
    }

    /** `fetchProducts.pending` */
    method Pending()
      modifies this
      ensures loading && error == None
      ensures products == old(products)
      ensures Valid()
    {
      loading := true;
      error := None;
    }

    /** `fetchProducts.fulfilled`: the error field is not touched. */
    method Fulfilled(payload: seq<Product>)
      requires Valid()
      modifies this
      ensures !loading && products == payload
      ensures error == old(error)
      ensures Valid()
    {
      loading := false;
      products := payload;
    }

    /** `fetchProducts.rejected`: the previous products stay (stale while in error). */
    method Rejected(message: Option<string>)
      modifies this
      ensures !loading && error == Some(ErrorText(message))
      ensures products == old(products)
      ensures Valid()
    {
      loading := false;
      error := Some(ErrorText(message));
    }

    /** One `dispatch(fetchProducts())` whose request settles with `outcome`. */
    method Fetch(outcome: FetchOutcome)
      modifies this
      ensures !loading && Valid()
      ensures outcome.Fulfilled? ==> products == outcome.payload && error == None
      ensures outcome.Rejected? ==> products == old(products) && error == Some(ErrorText(outcome.message))
    {
      Pending();
      match outcome {
        case Fulfilled(payload) => Fulfilled(payload);
        case Rejected(message) => Rejected(message);
      }
    }
  }

  /** A first load that fails leaves the catalog empty and reports the thunk's message. */
  method FirstLoadFails() returns (store: ProductsStore)
    ensures store.products == [] && !store.loading && store.error == Some("Network down")
  {
    store := new ProductsStore();
    store.Fetch(Rejected(Some("Network down")));
  }

  /** A retry that fails with an empty message replaces the earlier error by the fallback text. */
  method RetryFailsWithoutMessage() returns (store: ProductsStore)
    ensures store.products == [] && !store.loading && store.error == Some(DefaultError)
  {
    store := new ProductsStore();
    store.Fetch(Rejected(Some("Network down")));
    store.Fetch(Rejected(Some("")));
  }

  /**
   * Two requests in flight at once: whichever settles last decides `loading` and the
   * products, but a rejection settling first leaves its error beside the fresh products.
   */
  method OverlappingFetches(latest: seq<Product>, message: Option<string>) returns (store: ProductsStore)
    ensures !store.loading && store.products == latest
    ensures store.error == Some(ErrorText(message))
  {
    store := new ProductsStore();
    store.Pending();
    store.Pending();
    store.Rejected(message);
    assert store.products == [] && store.error.Some?;
    store.Fulfilled(latest);
  }
}
