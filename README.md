# Storefront cart and catalog state, in Dafny

This project models the state logic of a small client-side storefront. The logic lives in three places:

- **The cart slice** (`store/slices/cart-slice.ts`). The cart is an ordered sequence of line items (`id`, `title`, `price`, `image`, `quantity`) plus two totals. `initializeCart`, `addToCart`, `removeFromCart`, `updateQuantity` and `clearCart` each change the state in place. After each one the totals are recomputed by the pure fold `calculateTotals`, and the items are written to the `"cart"` key of durable storage. In the model the cart is the class `CartSlice.CartStore`. It has the fields `items`, `totalItems`, `totalPrice` and `storage`, where `storage: Option<seq<CartItem>>` stands for the storage key. Each reducer is a method whose `ensures` gives the new items as a pure function: of the old items for `AddToCart`, `RemoveFromCart` and `UpdateQuantity` (`AddedItems`, `RemovedItems`, `UpdatedItems`), of storage for `InitializeCart` (`Load`), and the empty sequence for `ClearCart`. Every one of them ensures that the totals equal the fold (`Consistent`). The four mutating methods `AddToCart`, `RemoveFromCart`, `UpdateQuantity` and `ClearCart` also ensure that storage holds the items (`Persisted`), and the first three keep unique ids and quantities of at least 1 (`WellFormed`). `InitializeCart` leaves storage as it was and ensures neither: nothing is written when the slot is empty, and what it loads is not checked. Lemmas prove what those pure functions promise.
- **The products slice** (`store/slices/products-slice.ts`). This is the catalog with its `loading`/`error` status, driven by the `pending`, `fulfilled` and `rejected` actions of the `fetchProducts` thunk. The model is the class `ProductsSlice.ProductsStore`. How the network request ends is an input (`FetchOutcome`), not I/O. Every transition keeps the invariant `Valid()`: while `loading` is set there is no error, and an error message is never empty. Any request that settles clears `loading`, so with overlapping requests one may still be in flight while `loading` is off and an error is set (`ProductsSlice.OverlappingFetches`).
- **The catalog page** (`app/products/page.tsx`). The search filter is a pure function (`ProductsPage.FilterProducts`). It is built on ASCII versions of `toLowerCase`, `trim` and `includes` (module `Text`) and on a generic `Array.prototype.filter` (module `Seqs`). `handleAddToCart` builds the `addToCart` payload from a product.

Prices are integer cents, so `totalPrice` is exact. Identifiers and quantities are unbounded integers.

Behaviour of the code worth knowing, which the model follows as written:

- `clearCart` writes the empty sequence to storage. So a reload after `clearCart` gives an empty cart, not the cart from before the clear (`CartSlice.AddTwiceThenReload`).
- `initializeCart` does not check what it loads. Unique ids and positive quantities therefore hold after it only if the stored items already had them.
- `fulfilled` does not clear `error`; only `pending` does. One fetch cycle (`Fetch`) always ends with no error after a success. But when two requests overlap and the rejected one settles first, the state ends up with the new products *and* the old error (`ProductsSlice.OverlappingFetches`). So "loading / error / loaded" is not a strict three-way status. The idle initial state is a fourth case.
- The search filter trims the query only to decide whether it is blank. A query that is not blank is matched untrimmed.

## Model

| member | source | states |
|---|---|---|
| `Seqs.Filter` | store/slices/cart-slice.ts:61 | `Array.prototype.filter`; what it promises is stated by `Seqs.FilterSpec` and the lemmas after it |
| `Seqs.FilterSpec` | store/slices/cart-slice.ts:61 | `filter` returns a subsequence of its input, no longer than it, holding exactly the elements that satisfy the predicate |
| `Seqs.FilterAppend` | store/slices/cart-slice.ts:61 | filtering distributes over concatenation, so the kept elements stay in their relative order |
| `Seqs.FilterKeepsAll` | store/slices/cart-slice.ts:61 | when every element satisfies the predicate, filtering returns the input unchanged |
| `Seqs.FilterIdempotent` | app/products/page.tsx:32 | filtering twice with the same predicate gives the same result as filtering once |
| `Seqs.FilterDropsOne` | store/slices/cart-slice.ts:61 | when exactly one element fails the predicate, filtering deletes exactly that position |
| `Seqs.SubsequenceReflexive` | app/products/page.tsx:29 | every sequence is a subsequence of itself |
| `Seqs.SubsequenceMembers` | store/slices/cart-slice.ts:61 | every element of a subsequence is an element of the whole sequence |
| `CartSlice.SumQuantities` | store/slices/cart-slice.ts:19 | the `totalItems` fold; constrained by `CartSlice.TotalsAppend`, `CartSlice.TotalsReplace`, `CartSlice.TotalsDropOne` and `CartSlice.TotalItemsBounds` |
| `CartSlice.SumPrices` | store/slices/cart-slice.ts:20 | the `totalPrice` fold; constrained by `CartSlice.TotalsAppend`, `CartSlice.TotalsReplace`, `CartSlice.TotalsDropOne` and `CartSlice.TotalPriceNonNegative` |
| `CartSlice.CalculateTotals` | store/slices/cart-slice.ts:18-22 | both folds paired; `CartSlice.RemoveAbsent` and `CartSlice.LoadNothing` state it on removal and on an empty load |
| `CartSlice.AddedItems` | store/slices/cart-slice.ts:43-50 | the items after `addToCart`; stated by `CartSlice.AddExisting`, `CartSlice.AddNew`, `CartSlice.WellFormedAdded` and `CartSlice.TotalsAdded` |
| `CartSlice.RemovedItems` | store/slices/cart-slice.ts:61 | the items after `removeFromCart`; stated by `CartSlice.RemovedSpec`, `CartSlice.RemoveAbsent`, `CartSlice.RemovePresent`, `CartSlice.RemoveIdempotent` and `CartSlice.WellFormedRemoved` |
| `CartSlice.UpdatedItems` | store/slices/cart-slice.ts:74-81 | the items after `updateQuantity`; stated by `CartSlice.UpdateNonPositiveRemoves`, `CartSlice.UpdatePositive`, `CartSlice.UpdateAbsent` and `CartSlice.WellFormedUpdated` |
| `CartSlice.Load` | store/slices/cart-slice.ts:6-10 | what `loadCartFromStorage` returns; stated by `CartSlice.LoadNothing`, and by `CartSlice.CartStore.InitializeCart` and `CartSlice.Reload` for stored values |
| `CartSlice.CartStore.Consistent` | store/slices/cart-slice.ts:37-39 | the totals equal the folds; every reducer method ensures it |
| `CartSlice.CartStore.Persisted` | store/slices/cart-slice.ts:56 | storage holds the current items; every reducer method except `InitializeCart` ensures it |
| `CartSlice.Find` | store/slices/cart-slice.ts:44 | `find` returns the position of the first line with the id, or nothing exactly when no line has it |
| `CartSlice.TotalsAppend` | store/slices/cart-slice.ts:18-22 | both folds of `calculateTotals` over a concatenation are the sums of the folds over the parts |
| `CartSlice.TotalsReplace` | store/slices/cart-slice.ts:18-22 | replacing one line changes each total by exactly the difference between the old and the new line |
| `CartSlice.TotalsDropOne` | store/slices/cart-slice.ts:18-22 | deleting one line takes exactly its quantity and its price × quantity out of the totals |
| `CartSlice.TotalItemsBounds` | store/slices/cart-slice.ts:19 | with positive quantities `totalItems` is at least the number of lines, and it is 0 exactly when the cart is empty |
| `CartSlice.TotalPriceNonNegative` | store/slices/cart-slice.ts:20 | with non-negative prices and positive quantities `totalPrice` is non-negative |
| `CartSlice.CartStore.constructor` | store/slices/cart-slice.ts:24-28 | the initial state has no items and zero totals, next to whatever an earlier session stored |
| `CartSlice.CartStore.SetTotals` | store/slices/cart-slice.ts:37-39 | the totals fields are set to the two folds over the current items |
| `CartSlice.CartStore.InitializeCart` | store/slices/cart-slice.ts:35-40 | the items become the stored ones (empty when nothing is stored), the totals are the folds, and storage is only read; right after any other reducer it reproduces the same items and totals |
| `CartSlice.CartStore.AddToCart` | store/slices/cart-slice.ts:43-57 | the items become `AddedItems` of the old items, the totals are the folds, storage holds the new items, and a well-formed cart stays well formed |
| `CartSlice.CartStore.RemoveFromCart` | store/slices/cart-slice.ts:60-68 | the items become the old items without that id, the totals are re-folded, storage holds the items, and well-formedness is kept |
| `CartSlice.CartStore.UpdateQuantity` | store/slices/cart-slice.ts:71-88 | the items become `UpdatedItems` of the old items, the totals are re-folded, storage holds the items, and well-formedness is kept |
| `CartSlice.CartStore.ClearCart` | store/slices/cart-slice.ts:91-96 | no items, both totals 0, and storage holds the empty sequence |
| `CartSlice.AddExisting` | store/slices/cart-slice.ts:44-47 | adding an id whose first line is at `i` changes only that line, and only its quantity, which goes up by one; length, order and the other lines are unchanged |
| `CartSlice.AddNew` | store/slices/cart-slice.ts:48-50 | adding a new id appends exactly one line with the payload's fields and quantity 1 |
| `CartSlice.WellFormedAdded` | store/slices/cart-slice.ts:43-50 | `addToCart` keeps ids unique and all quantities at least 1 |
| `CartSlice.TotalsAdded` | store/slices/cart-slice.ts:43-54 | after `addToCart` there is one more unit, and `totalPrice` grows by the price already in the cart for that id (the payload's price only for a new line) |
| `CartSlice.RemovedSpec` | store/slices/cart-slice.ts:61 | after `removeFromCart(id)` no line has that id, the result is a subsequence of the old items, and every other line is still there |
| `CartSlice.RemoveAbsent` | store/slices/cart-slice.ts:61-65 | removing an absent id leaves the items and the totals unchanged |
| `CartSlice.RemovePresent` | store/slices/cart-slice.ts:61-65 | in a cart with unique ids, removing a present id deletes exactly its line, keeps the order of the rest, and takes exactly its share out of each total |
| `CartSlice.RemoveIdempotent` | store/slices/cart-slice.ts:61 | removing the same id twice gives the same result as removing it once |
| `CartSlice.WellFormedRemoved` | store/slices/cart-slice.ts:61 | `removeFromCart` keeps ids unique and quantities positive |
| `CartSlice.SubsequenceWellFormed` | store/slices/cart-slice.ts:61 | every subsequence of a well-formed item sequence is well formed |
| `CartSlice.UpdateNonPositiveRemoves` | store/slices/cart-slice.ts:74-75 | `updateQuantity` with a quantity of 0 or less gives the same items as `removeFromCart` |
| `CartSlice.UpdatePositive` | store/slices/cart-slice.ts:76-80 | a positive quantity overwrites only the first matching line's quantity, at the same position, and all other lines stay as they were |
| `CartSlice.UpdateAbsent` | store/slices/cart-slice.ts:74-81 | `updateQuantity` on an absent id leaves the items unchanged, whatever the quantity |
| `CartSlice.WellFormedUpdated` | store/slices/cart-slice.ts:74-81 | `updateQuantity` keeps ids unique and quantities positive |
| `CartSlice.DecrementLastUnitRemoves` | components/cart-sheet.tsx:57 | the cart sheet's minus button on a line with quantity 1 deletes exactly that line |
| `CartSlice.LoadNothing` | store/slices/cart-slice.ts:6-10 | an absent key loads as an empty cart with zero totals |
| `CartSlice.IncrementIsAdd` | components/cart-sheet.tsx:66 | the cart sheet's plus button, `updateQuantity` to one more than a line's non-negative quantity on the first line with its id, gives the same items as `addToCart` with that line's fields |
| `CartSlice.Reload` | app/providers.tsx:10-13 | a new session on the storage of a session whose items are what that storage loads as (true after every reducer, `initializeCart` included), followed by the provider's `initializeCart`, has exactly the items and both totals of the old session |
| `CartSlice.AddTwiceThenReload` | store/slices/cart-slice.ts:43-96 | adding one product twice and another once gives two lines, 3 units and 2498 cents, and a reload shows the same; after removing the first product and clearing, a reload shows an empty cart |
| `ProductsSlice.ErrorText` | store/slices/products-slice.ts:37 | the error is the thrown message when it is present and non-empty, otherwise "Failed to fetch products"; it is never empty |
| `ProductsSlice.ProductsStore.Valid` | store/slices/products-slice.ts:27-38 | while `loading` is set the error is null, and an error is never the empty string; the constructor and every transition ensure it |
| `ProductsSlice.ProductsStore.constructor` | store/slices/products-slice.ts:15-19 | the initial state has no products, is not loading and has no error |
| `ProductsSlice.ProductsStore.Pending` | store/slices/products-slice.ts:27-30 | `pending` sets loading, clears the error and keeps the products |
| `ProductsSlice.ProductsStore.Fulfilled` | store/slices/products-slice.ts:31-34 | `fulfilled` clears loading, stores the payload and leaves the error as it was |
| `ProductsSlice.ProductsStore.Rejected` | store/slices/products-slice.ts:35-38 | `rejected` clears loading, sets the error text and keeps the previous products |
| `ProductsSlice.ProductsStore.Fetch` | store/slices/products-slice.ts:27-38 | `pending` followed by `fulfilled` leaves no error and the new products; `pending` followed by `rejected` leaves an error and the old products; loading is off either way |
| `ProductsSlice.FirstLoadFails` | store/slices/products-slice.ts:35-38 | a failing first load leaves the catalog empty, loading off, and the thrown message as the error |
| `ProductsSlice.RetryFailsWithoutMessage` | store/slices/products-slice.ts:35-38 | a retry after that first failure which fails with an empty message keeps the catalog empty and replaces the error by "Failed to fetch products" |
| `ProductsSlice.OverlappingFetches` | store/slices/products-slice.ts:27-38 | with two requests in flight, a rejection settling before a success leaves the new products beside the rejection's error, with loading off |
| `Text.LowerChar` | app/products/page.tsx:32 | ASCII `toLowerCase` on one character; `Text.LowerCharWhitespace` and `Text.SameLowerSameWhitespace` state how it treats whitespace |
| `Text.Lower` | app/products/page.tsx:32 | `toLowerCase`, character by character; `Text.LowerIdempotent` and `ProductsPage.FilterLowerQuery` state its properties |
| `Text.LowerIdempotent` | app/products/page.tsx:32 | lower-casing twice gives the same result as lower-casing once |
| `Text.LowerCharWhitespace` | app/products/page.tsx:28 | lower-casing a character neither creates nor removes whitespace |
| `Text.SameLowerSameWhitespace` | app/products/page.tsx:28 | characters equal up to case are either both whitespace or both not |
| `Text.TrimStart` | app/products/page.tsx:28 | the result is a suffix of the input, everything dropped is whitespace, and the result does not start with whitespace |
| `Text.TrimEnd` | app/products/page.tsx:28 | the result is a prefix of the input, everything dropped is whitespace, and the result does not end with whitespace |
| `Text.Trim` | app/products/page.tsx:28 | `trim`, as `Text.TrimEnd` after `Text.TrimStart`, whose contracts state what each drops |
| `Text.IsBlank` | app/products/page.tsx:28 | `!query.trim()`; `Text.BlankIffAllWhitespace` and `Text.BlankIgnoresCase` characterise it |
| `Text.BlankIffAllWhitespace` | app/products/page.tsx:28 | `!query.trim()` holds exactly when every character of the query is whitespace |
| `Text.BlankIgnoresCase` | app/products/page.tsx:28 | strings equal up to case are either both blank or both not |
| `Text.Includes` | app/products/page.tsx:32 | `includes`, scanning start positions from the left; `Text.IncludesIff` states it finds exactly the occurrences |
| `Text.IncludesIff` | app/products/page.tsx:32 | the left-to-right `includes` scan succeeds exactly when the needle occurs at some position |
| `Text.OccurrenceMatchesUpToCase` | app/products/page.tsx:32 | where the lower-cased needle occurs in the lower-cased text, each of its characters matches the text's character there up to case |
| `Text.WhitespaceMustOccur` | app/products/page.tsx:32 | a needle with a whitespace character never occurs, case aside, in a text without whitespace |
| `ProductsPage.TitleMatches` | app/products/page.tsx:32 | the filter's test on one product; `ProductsPage.ShirtMatches` and `ProductsPage.FilterSoundComplete` state it |
| `ProductsPage.FilterProducts` | app/products/page.tsx:27-33 | `filteredProducts`; stated by the `ProductsPage.Filter…` lemmas below |
| `ProductsPage.FilterBlankQuery` | app/products/page.tsx:28-30 | an empty or whitespace-only query returns the product sequence unchanged |
| `ProductsPage.FilterOrdered` | app/products/page.tsx:32 | the result is a subsequence of the catalog, in catalog order |
| `ProductsPage.FilterSoundComplete` | app/products/page.tsx:32 | for a non-blank query, a catalog product is shown exactly when the lower-cased query occurs in its lower-cased title |
| `ProductsPage.FilterShownMatch` | app/products/page.tsx:32 | every product shown comes from the catalog and, for a non-blank query, its title matches |
| `ProductsPage.FilterIgnoresCase` | app/products/page.tsx:32 | queries that differ only in letter case show the same products |
| `ProductsPage.FilterLowerQuery` | app/products/page.tsx:32 | lower-casing the query beforehand shows the same products |
| `ProductsPage.FilterSameMatches` | app/products/page.tsx:32 | filtering by title with two queries that are equal up to case gives the same result |
| `ProductsPage.FilterIdempotentQuery` | app/products/page.tsx:32 | searching the search results again with the same query changes nothing |
| `ProductsPage.FilterUntrimmed` | app/products/page.tsx:28-32 | a non-blank query is not trimmed for matching: one containing whitespace never finds a title without whitespace |
| `ProductsPage.FilterTwo` | app/products/page.tsx:32 | on a two-product catalog a non-blank query keeps each product exactly when its title matches, in order |
| `ProductsPage.ShirtMatches` | app/products/page.tsx:32 | "SHIRT" matches the title "T-Shirt" and not "Mug" |
| `ProductsPage.SearchExample` | app/products/page.tsx:32 | searching "SHIRT" over a T-Shirt and a Mug shows only the T-Shirt |
| `ProductsPage.PayloadOf` | app/products/page.tsx:37-42 | the payload's four fields copied from the product; `ProductsPage.AddProductNew` and `ProductsPage.AddProductExisting` state what `addToCart` does with it |
| `ProductsPage.HandleAddToCart` | app/products/page.tsx:35-43 | the handler dispatches `addToCart` with the product's payload: the cart's items become `AddedItems` of the old items with that payload |
| `ProductsPage.AddProductNew` | app/products/page.tsx:35-43 | adding a product not in the cart appends a line with exactly its id, title, price and image and quantity 1 |
| `ProductsPage.AddProductExisting` | app/products/page.tsx:35-43 | adding a product whose first line in the cart is at `i` keeps that line's stored title, price and image and only raises its quantity by one |

## Left out

- `localStorage`, `JSON.stringify` and `JSON.parse` (store/slices/cart-slice.ts:6-16). Storage is one optional-sequence field whose write and read are the identity. An absent key and an empty string both read as `None`. A malformed stored value makes `JSON.parse` throw in the code; it is not modelled.
- The `typeof window` checks (store/slices/cart-slice.ts:7, 13). The model always has storage. Without a window the code skips the save and loads an empty cart.
- JavaScript numbers. Prices are integer cents, and quantities and identifiers are unbounded integers. Floating-point rounding of `price * quantity`, `toFixed(2)` and the 2^53 limit are not modelled.
- The network request of `fetchProducts` (store/slices/products-slice.ts:7-13) and the single-product hook `hooks/use-product.ts`. The request's outcome is an input to the reducers. The hook's cancel-on-unmount logic is an effect interleaving, which is not modelled here.
- Redux itself: dispatch, immutable updates through Immer, and re-rendering. The reducers are methods on one owned store object.
- All React views and the toast in `handleAddToCart`. Of the cart sheet (`components/cart-sheet.tsx`), only what its buttons dispatch is stated: the minus button on a line of quantity 1 in `CartSlice.DecrementLastUnitRemoves`, the plus button in `CartSlice.IncrementIsAdd`, and the remove button, which dispatches `removeFromCart(item.id)` directly, in `CartSlice.RemovePresent`.
- Unicode behaviour of `toLowerCase` and `trim`. Only 'A'..'Z' are lower-cased. The whitespace set is tab, line feed, vertical tab, form feed, carriage return and space. Non-ASCII characters are left unchanged and never count as whitespace.
- `Product.rating.rate` is a decimal in the catalog. Here it is an integer carried along unchanged, since nothing in the core reads it.
