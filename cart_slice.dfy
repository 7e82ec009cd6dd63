/**
 * The cart slice (store/slices/cart-slice.ts): an ordered sequence of cart items, two
 * totals derived from it by a fold, and the "cart" key of the client's durable storage.
 */
module CartSlice {
  import opened Types
  import opened Seqs

  /** The payload of `addToCart`: a product's identity and display fields, without a quantity. */
  datatype AddPayload = AddPayload(id: int, title: string, price: int, image: string)

  /** What `calculateTotals` returns. */
  datatype Totals = Totals(totalItems: int, totalPrice: int)

  // ---------------------------------------------------------------------------
  // The fold and the item-sequence queries

  /** `items.reduce((sum, item) => sum + item.quantity, 0)` */
  function SumQuantities(items: seq<CartItem>): int
  {
    if items == [] then 0 else items[0].quantity + SumQuantities(items[1..])
  }

  /** `items.reduce((sum, item) => sum + item.price * item.quantity, 0)` */
  function SumPrices(items: seq<CartItem>): int
  {
    if items == [] then 0 else items[0].price * items[0].quantity + SumPrices(items[1..])
  }

  /** `calculateTotals`: both folds over the items. */
  function CalculateTotals(items: seq<CartItem>): Totals
  {
    Totals(SumQuantities(items), SumPrices(items))
  }

  predicate HasId(items: seq<CartItem>, id: int)
  {
    exists k :: 0 <= k < |items| && items[k].id == id
  }

  /** At most one line per product identifier. */
  predicate UniqueIds(items: seq<CartItem>)
  {
    forall j, k :: 0 <= j < k < |items| ==> items[j].id != items[k].id
  }

  predicate PositiveQuantities(items: seq<CartItem>)
  {
    forall k :: 0 <= k < |items| ==> items[k].quantity >= 1
  }

  predicate NonNegativePrices(items: seq<CartItem>)
  {
    forall k :: 0 <= k < |items| ==> items[k].price >= 0
  }

  /** The cart invariant the reducers are meant to keep. */
  predicate WellFormed(items: seq<CartItem>)
  {
    UniqueIds(items) && PositiveQuantities(items)
  }

  /** `items.find(item => item.id === id)`, as the position of the first match. */
  function Find(items: seq<CartItem>, id: int): (r: Option<nat>)
    ensures r.Some? ==> r.value < |items| && items[r.value].id == id
    ensures r.Some? ==> forall k :: 0 <= k < r.value ==> items[k].id != id
    ensures r.None? <==> !HasId(items, id)
  {
    if items == [] then None
    else if items[0].id == id then Some(0)
    else match Find(items[1..], id)
      case None => None
      case Some(k) => Some(k + 1)
  }

  /** The line `addToCart` appends for a new product: `{ ...payload, quantity: 1 }`. */
  function NewItem(p: AddPayload): CartItem
  {
    CartItem(p.id, p.title, p.price, p.image, 1)
  }

  // ---------------------------------------------------------------------------
  // The item sequence each reducer produces

  /** The items after `addToCart(p)`. */
  function AddedItems(items: seq<CartItem>, p: AddPayload): seq<CartItem>
  {
    match Find(items, p.id)
    case Some(i) => items[i := items[i].(quantity := items[i].quantity + 1)]
    case None => items + [NewItem(p)]
  }

  /** The items after `removeFromCart(id)`: `items.filter(item => item.id !== id)`. */
  function RemovedItems(items: seq<CartItem>, id: int): seq<CartItem>
  {
    Filter(items, (item: CartItem) => item.id != id)
  }

  /** The items after `updateQuantity({ id, quantity })`. */
  function UpdatedItems(items: seq<CartItem>, id: int, quantity: int): seq<CartItem>
  {
    if quantity <= 0 then RemovedItems(items, id)
    else match Find(items, id)
      case Some(i) => items[i := items[i].(quantity := quantity)]
      case None => items
  }

  /** `loadCartFromStorage`: an absent (or empty) "cart" key reads as the empty cart. */
  function Load(stored: Option<seq<CartItem>>): seq<CartItem>
  {
    match stored
    case None => []
    case Some(saved) => saved
  }

  // ---------------------------------------------------------------------------
  // The store

  class CartStore {
    var items: seq<CartItem>
    var totalItems: int
    var totalPrice: int
    /** The "cart" key of durable storage; `None` when nothing has been saved. */
    var storage: Option<seq<CartItem>>

    /** The totals are exactly the folds over the items. */
    ghost predicate Consistent()
      reads this
    {
      totalItems == SumQuantities(items) && totalPrice == SumPrices(items)
    }

    /** The storage slot holds the current items. */
    ghost predicate Persisted()
      reads this
    {
      storage == Some(items)
    }

    /** `initialState`, before `initializeCart`, beside whatever an earlier session saved. */
    constructor (persisted: Option<seq<CartItem>>)
      ensures items == [] && totalItems == 0 && totalPrice == 0
      ensures storage == persisted
      ensures Consistent()
    {
      items := [];
      totalItems := 0;
      totalPrice := 0;
      storage := persisted;
    }

    method SetTotals()
      modifies this`totalItems, this`totalPrice
      ensures Consistent()
    {
      var totals := CalculateTotals(items);
      totalItems := totals.totalItems;
      totalPrice := totals.totalPrice;
    }

    /**
     * `initializeCart`: replace the items by the stored ones; storage is only read.
     * Right after any other reducer it reproduces the same items and totals.
     */
    method InitializeCart()
      modifies this
      ensures items == Load(storage)
      ensures storage == old(storage)
      ensures Consistent()
      ensures old(Persisted() && Consistent()) ==>
                items == old(items) && totalItems == old(totalItems) && totalPrice == old(totalPrice)
    {
      items := Load(storage);
      SetTotals();
    }

    /** `addToCart`: bump the quantity of the line with this id, or append a new line. */
    method AddToCart(p: AddPayload)
      modifies this
      ensures items == AddedItems(old(items), p)
      ensures Consistent() && Persisted()
      ensures old(WellFormed(items)) ==> WellFormed(items)
    {
      WellFormedAdded(items, p);
      var existing := Find(items, p.id);
      match existing {
        case Some(i) =>
          items := items[i := items[i].(quantity := items[i].quantity + 1)];
        case None =>
          items := items + [NewItem(p)];
      }
      SetTotals();
      storage := Some(items);
    }

    /** `removeFromCart`: drop every line with this id. */
    method RemoveFromCart(id: int)
      modifies this
      ensures items == RemovedItems(old(items), id)
      ensures Consistent() && Persisted()
      ensures old(WellFormed(items)) ==> WellFormed(items)
    {
      WellFormedRemoved(items, id);
      items := RemovedItems(items, id);
      SetTotals();
      storage := Some(items);
    }

    /** `updateQuantity`: a non-positive quantity removes the line, otherwise it is overwritten. */
    method UpdateQuantity(id: int, quantity: int)
      modifies this
      ensures items == UpdatedItems(old(items), id, quantity)
      ensures Consistent() && Persisted()
      ensures old(WellFormed(items)) ==> WellFormed(items)
    {
      WellFormedUpdated(items, id, quantity);
      if quantity <= 0 {
        items := RemovedItems(items, id);
      } else {
        var existing := Find(items, id);
        if existing.Some? {
          var i := existing.value;
          items := items[i := items[i].(quantity := quantity)];
        }
      }
      SetTotals();
      storage := Some(items);
    }

    /** `clearCart` */
    method ClearCart()
      modifies this
      ensures items == [] && totalItems == 0 && totalPrice == 0
      ensures storage == Some([])
      ensures Consistent() && Persisted()
    {
      items := [];
      totalItems := 0;
      totalPrice := 0;
      storage := Some([]);
    }
  }

  // ---------------------------------------------------------------------------
  // Properties of the fold

  /** The fold over a concatenation is the sum of the folds. */
  lemma {:induction false} TotalsAppend(a: seq<CartItem>, b: seq<CartItem>)
    ensures SumQuantities(a + b) == SumQuantities(a) + SumQuantities(b)
    ensures SumPrices(a + b) == SumPrices(a) + SumPrices(b)
  {
    if a == [] {
      assert a + b == b;
    } else {
      assert (a + b)[1..] == a[1..] + b;
      TotalsAppend(a[1..], b);
    }
  }

  /** Replacing one line changes each total by exactly that line's difference. */
  lemma {:induction false} TotalsReplace(items: seq<CartItem>, i: nat, x: CartItem)
    requires i < |items|
    ensures SumQuantities(items[i := x]) == SumQuantities(items) - items[i].quantity + x.quantity
    ensures SumPrices(items[i := x]) == SumPrices(items) - items[i].price * items[i].quantity + x.price * x.quantity
  {
    if i > 0 {
      assert items[i := x][1..] == items[1..][i - 1 := x];
      TotalsReplace(items[1..], i - 1, x);
    }
  }

  /** With positive quantities there are at least as many units as lines, and no units only in an empty cart. */
  lemma {:induction false} TotalItemsBounds(items: seq<CartItem>)
    requires PositiveQuantities(items)
    ensures SumQuantities(items) >= |items|
    ensures SumQuantities(items) == 0 <==> items == []
  {
    if items != [] {
      TotalItemsBounds(items[1..]);
    }
  }

  /** With non-negative prices and positive quantities the price total is non-negative. */
  lemma {:induction false} TotalPriceNonNegative(items: seq<CartItem>)
    requires NonNegativePrices(items) && PositiveQuantities(items)
    ensures SumPrices(items) >= 0
  {
    if items != [] {
      TotalPriceNonNegative(items[1..]);
    }
  }

  // ---------------------------------------------------------------------------
  // addToCart

  /**
   * An id already present at `i`, its first line: only that line changes, and only its
   * quantity, by one. Later lines with the same id (possible in a cart loaded from storage)
   * are left alone, as `find` stops at the first match.
   */
  lemma AddExisting(items: seq<CartItem>, p: AddPayload, i: nat)
    requires i < |items| && items[i].id == p.id
    requires forall k :: 0 <= k < i ==> items[k].id != p.id
    ensures |AddedItems(items, p)| == |items|
    ensures AddedItems(items, p)[i] == items[i].(quantity := items[i].quantity + 1)
    ensures forall k :: 0 <= k < |items| && k != i ==> AddedItems(items, p)[k] == items[k]
  {
    var f := Find(items, p.id);
    assert f.Some? && f.value == i;
  }

  /** A new id: exactly one line with the payload fields and quantity 1 is appended. */
  lemma AddNew(items: seq<CartItem>, p: AddPayload)
    requires !HasId(items, p.id)
    ensures AddedItems(items, p) == items + [CartItem(p.id, p.title, p.price, p.image, 1)]
  {
  }

  /** `addToCart` keeps ids unique and quantities positive. */
  lemma WellFormedAdded(items: seq<CartItem>, p: AddPayload)
    ensures WellFormed(items) ==> WellFormed(AddedItems(items, p))
  {
    if WellFormed(items) && !HasId(items, p.id) {
      var r := AddedItems(items, p);
      forall j, k | 0 <= j < k < |r| ensures r[j].id != r[k].id {
        if k == |items| {
          assert r[j] == items[j];
        }
      }
    }
  }

  /** `addToCart` adds one unit, priced at the price already in the cart when the id is present. */
  lemma {:induction false} TotalsAdded(items: seq<CartItem>, p: AddPayload)
    ensures SumQuantities(AddedItems(items, p)) == SumQuantities(items) + 1
    ensures SumPrices(AddedItems(items, p)) == SumPrices(items) + match Find(items, p.id)
      case Some(i) => items[i].price
      case None => p.price
  {
    match Find(items, p.id)
    case Some(i) =>
      TotalsReplace(items, i, items[i].(quantity := items[i].quantity + 1));
    case None =>
      TotalsAppend(items, [NewItem(p)]);
  }

  // ---------------------------------------------------------------------------
  // removeFromCart

  /** `removeFromCart(id)` leaves no line with that id and keeps every other line, in order. */
  lemma RemovedSpec(items: seq<CartItem>, id: int)
    ensures !HasId(RemovedItems(items, id), id)
    ensures IsSubsequence(RemovedItems(items, id), items)
    ensures forall k :: 0 <= k < |items| && items[k].id != id ==> items[k] in RemovedItems(items, id)
  {
    FilterSpec(items, (item: CartItem) => item.id != id);
  }

  /** Removing an absent id changes neither the items nor the totals. */
  lemma RemoveAbsent(items: seq<CartItem>, id: int)
    requires !HasId(items, id)
    ensures RemovedItems(items, id) == items
    ensures CalculateTotals(RemovedItems(items, id)) == CalculateTotals(items)
  {
    FilterKeepsAll(items, (item: CartItem) => item.id != id);
  }

  /** In a well-formed cart, removing a present id deletes exactly its one line. */
  lemma RemovePresent(items: seq<CartItem>, id: int, i: nat)
    requires UniqueIds(items)
    requires i < |items| && items[i].id == id
    ensures RemovedItems(items, id) == items[..i] + items[i + 1..]
    ensures SumQuantities(RemovedItems(items, id)) == SumQuantities(items) - items[i].quantity
    ensures SumPrices(RemovedItems(items, id)) == SumPrices(items) - items[i].price * items[i].quantity
  {
    FilterDropsOne(items, i, (item: CartItem) => item.id != id);
    TotalsDropOne(items, i);
  }

  /** Deleting the line at position `i` takes exactly its contribution out of each total. */
  lemma {:induction false} TotalsDropOne(items: seq<CartItem>, i: nat)
    requires i < |items|
    ensures SumQuantities(items[..i] + items[i + 1..]) == SumQuantities(items) - items[i].quantity
    ensures SumPrices(items[..i] + items[i + 1..]) == SumPrices(items) - items[i].price * items[i].quantity
  {
    if i == 0 {
      assert items[..0] + items[1..] == items[1..];
    } else {
      TotalsDropOne(items[1..], i - 1);
      assert items[..i] + items[i + 1..] == [items[0]] + (items[1..][..i - 1] + items[1..][i..]);
    }
  }

  /** Removing twice is removing once. */
  lemma RemoveIdempotent(items: seq<CartItem>, id: int)
    ensures RemovedItems(RemovedItems(items, id), id) == RemovedItems(items, id)
  {
    FilterIdempotent(items, (item: CartItem) => item.id != id);
  }

  lemma WellFormedRemoved(items: seq<CartItem>, id: int)
    ensures WellFormed(items) ==> WellFormed(RemovedItems(items, id))
  {
    if WellFormed(items) {
      FilterSpec(items, (item: CartItem) => item.id != id);
      SubsequenceWellFormed(RemovedItems(items, id), items);
    }
  }

  /** A subsequence of a well-formed cart is well formed. */
  lemma {:induction false} SubsequenceWellFormed(r: seq<CartItem>, s: seq<CartItem>)
    requires IsSubsequence(r, s) && WellFormed(s)
    ensures WellFormed(r)
  {
    if r != [] && s != [] {
      if r[0] == s[0] {
        SubsequenceWellFormed(r[1..], s[1..]);
        SubsequenceMembers(r[1..], s[1..]);
        forall k | 0 < k < |r| ensures r[0].id != r[k].id {
          assert r[1..][k - 1] in s[1..];
        }
      } else {
        SubsequenceWellFormed(r, s[1..]);
      }
    }
  }

  // ---------------------------------------------------------------------------
  // updateQuantity and clearCart

  /** A quantity of zero or less is `removeFromCart`. */
  lemma UpdateNonPositiveRemoves(items: seq<CartItem>, id: int, quantity: int)
    requires quantity <= 0
    ensures UpdatedItems(items, id, quantity) == RemovedItems(items, id)
  {
  }

  /** A positive quantity overwrites only the first matching line's quantity, at the same position. */
  lemma UpdatePositive(items: seq<CartItem>, id: int, quantity: int, i: nat)
    requires quantity > 0 && i < |items| && items[i].id == id
    requires forall k :: 0 <= k < i ==> items[k].id != id
    ensures |UpdatedItems(items, id, quantity)| == |items|
    ensures UpdatedItems(items, id, quantity)[i] == items[i].(quantity := quantity)
    ensures forall k :: 0 <= k < |items| && k != i ==> UpdatedItems(items, id, quantity)[k] == items[k]
  {
    var f := Find(items, id);
    assert f.Some? && f.value == i;
  }

  /** An absent id leaves the items as they were, whatever the quantity. */
  lemma UpdateAbsent(items: seq<CartItem>, id: int, quantity: int)
    requires !HasId(items, id)
    ensures UpdatedItems(items, id, quantity) == items
  {
    RemoveAbsent(items, id);
  }

  lemma WellFormedUpdated(items: seq<CartItem>, id: int, quantity: int)
    ensures WellFormed(items) ==> WellFormed(UpdatedItems(items, id, quantity))
  {
    WellFormedRemoved(items, id);
  }

  /** The cart sheet's minus button on a line of quantity 1 removes the line. */
  lemma DecrementLastUnitRemoves(items: seq<CartItem>, i: nat)
    requires UniqueIds(items)
    requires i < |items| && items[i].quantity == 1
    ensures UpdatedItems(items, items[i].id, items[i].quantity - 1) == items[..i] + items[i + 1..]
  {
    RemovePresent(items, items[i].id, i);
  }

  /**
   * The cart sheet's plus button, `updateQuantity({ id, quantity: quantity + 1 })` on a
   * line already in the cart, does what `addToCart` does for that line.
   */
  lemma IncrementIsAdd(items: seq<CartItem>, i: nat)
    requires i < |items| && items[i].quantity >= 0
    requires forall k :: 0 <= k < i ==> items[k].id != items[i].id
    ensures UpdatedItems(items, items[i].id, items[i].quantity + 1)
         == AddedItems(items, AddPayload(items[i].id, items[i].title, items[i].price, items[i].image))
  {
    var f := Find(items, items[i].id);
    assert f.Some? && f.value == i;
  }

  /** Nothing stored loads as an empty cart with zero totals. */
  lemma LoadNothing()
    ensures Load(None) == []
    ensures CalculateTotals(Load(None)) == Totals(0, 0)
  {
  }

  // ---------------------------------------------------------------------------
  // Scenarios dispatched the way the view layer does

  /**
   * A new session (a page reload) on the storage of a session whose items are what that
   * storage loads as: the provider dispatches `initializeCart`, which restores exactly the
   * items and totals of before. That holds after every reducer, `initializeCart` included.
   */
  method Reload(c: CartStore) returns (r: CartStore)
    requires c.Consistent() && c.items == Load(c.storage)
    ensures r.items == c.items && r.totalItems == c.totalItems && r.totalPrice == c.totalPrice
    ensures r.storage == c.storage
    ensures c.Persisted() ==> r.Persisted()
    ensures fresh(r)
  {
    r := new CartStore(c.storage);
    r.InitializeCart();
  }

  /**
   * Two units of one product and one of another, reloaded in a new session; then the
   * first product removed, the cart cleared, and reloaded again.
   */
  method AddTwiceThenReload() returns (reloaded: CartStore, afterClear: CartStore)
    ensures reloaded.items == [CartItem(1, "Shirt", 999, "shirt.png", 2), CartItem(2, "Mug", 500, "mug.png", 1)]
    ensures reloaded.totalItems == 3 && reloaded.totalPrice == 2498
    ensures afterClear.items == [] && afterClear.totalItems == 0 && afterClear.totalPrice == 0
  {
    var shirt := AddPayload(1, "Shirt", 999, "shirt.png");
    var mug := AddPayload(2, "Mug", 500, "mug.png");
    var cart := new CartStore(None);
    cart.InitializeCart();
    assert cart.items == [] && cart.totalItems == 0 && cart.totalPrice == 0;
    TotalsAdded(cart.items, shirt);
    cart.AddToCart(shirt);
    TotalsAdded(cart.items, shirt);
    cart.AddToCart(shirt);
    TotalsAdded(cart.items, mug);
    cart.AddToCart(mug);
    assert cart.items == [CartItem(1, "Shirt", 999, "shirt.png", 2), CartItem(2, "Mug", 500, "mug.png", 1)];
    reloaded := Reload(cart);

    RemovePresent(cart.items, 1, 0);
    cart.RemoveFromCart(1);
    assert cart.items == [CartItem(2, "Mug", 500, "mug.png", 1)];
    cart.ClearCart();
    afterClear := Reload(cart);
  }
}
