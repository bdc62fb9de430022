# Storefront store, modelled in Dafny

A model of the in-memory store behind a small browser storefront. The
store holds two collections: the product catalog and the shopping cart of
line-items. It has seven operations that rewrite them:

- `addToCart`, which merges into an existing line-item;
- `removeFromCart`;
- `updateCartQuantity`, which removes the line-item when the quantity is not positive;
- `clearCart`;
- `addProduct`, `updateProduct` and `deleteProduct` (the last also removes the product from the cart).

The cart total is derived from the cart. The model also covers three
satellites of the store:

- the browsing page's category filter, category list and per-product quantity selectors;
- the navigation bar's cart badge count;
- the seed catalog the store starts from when nothing has been saved.

Layout, one module per source file:

- `types.dfy` (`Types`): the record shapes. A `CartItem` is the product it was made from plus `cartQuantity`, which is what `{ ...product, cartQuantity }` builds. Prices are integer cents.
- `seqs.dfy` (`Seqs`): the array operations the store is written with (`find`, `filter`, `map`, `reduce`), as recursive functions over sequences, together with their lemmas.
- `constants.dfy` (`Constants`): the seed catalog.
- `store_context.dfy` (`StoreContext`): each operation as a pure function of the old collection, and the lemmas about those functions. The class `Store` has the two collections as fields. Its methods assign the new values, as the provider's state setters do, and their postconditions tie the new state to the pure functions.
- `navbar.dfy` (`Navbar`): the badge count and when the badge is visible.
- `home_page.dfy` (`HomePage`): the filter and category list as functions. The class `HomeView` holds the page's selected category and its quantity-selector map.

Points where the store's intended invariants and its code part ways (the model follows the code):

- The cart invariant only holds when callers pass positive quantities. A line-item's quantity is meant to be always positive, but `addToCart` does not clamp its quantity, so the invariant only holds under that condition (`AddToCartKeepsPositive`). A non-positive quantity for a new product does create a non-positive line-item (`AddToCartDoesNotClamp`).
- `removeFromCart`, `deleteProduct` and `updateProduct` act on every entry that has the identifier, not on a single one. This is the behaviour of `filter` and `map`.
- Product identifiers are not kept unique. `addProduct` performs no check, so the catalog stays duplicate-free exactly when the new identifier is new (`AddProductUniqueness`).
- `category` is a free string in the record type, not the enumeration.

## Model

| member | source | states |
|---|---|---|
| Types.CategoryValuesDistinct | types.ts:17-23 | the five category values are pairwise distinct strings |
| Constants.InitialProducts | constants.ts:3-40 | the seed catalog has four products with pairwise distinct ids; every category is an enumeration value; prices and stock are non-negative |
| Seqs.Filter | pages/Home.tsx:12 | the result of `filter` is no longer than the input, and an element is in it exactly when it is in the input and passes the test |
| Seqs.FilterCounts | pages/Home.tsx:12 | `filter` keeps every copy of an element that passes and no copy of one that fails |
| Seqs.Sum | context/StoreContext.tsx:85 | the `reduce` from 0 over an empty sequence is 0 |
| Seqs.SumAppend | context/StoreContext.tsx:85 | the left-fold sum over a concatenation is the sum of the sums of its parts |
| Seqs.Without | context/StoreContext.tsx:56 | dropping an id leaves no element with that id and keeps every other element with all its copies, in order; an absent id gives the input back; unique keys stay unique |
| StoreContext.AddedToCart | context/StoreContext.tsx:41-53 | a present product keeps the length and stored product fields and adds the quantity to the matching line-items only; an absent product appends exactly one line-item with the given quantity |
| StoreContext.AddToCartMergesOne | context/StoreContext.tsx:43-49 | with unique ids, adding a present product changes only that line-item's quantity, by the added amount, and keeps its stored name and price |
| StoreContext.AddToCartKeepsUniqueIds | context/StoreContext.tsx:41-53 | adding to a cart with unique ids keeps them unique |
| StoreContext.AddToCartKeepsPositive | context/StoreContext.tsx:47-51 | with a positive quantity, all line-item quantities stay positive |
| StoreContext.AddToCartDoesNotClamp | context/StoreContext.tsx:51 | a non-positive quantity for a product not yet in the cart creates a non-positive line-item |
| StoreContext.AddTwiceMerges | context/StoreContext.tsx:41-53 | adding 2 and then 3 of one product to an empty cart gives one line-item of 5 |
| StoreContext.RemovedFromCart | context/StoreContext.tsx:55-57 | no line-item with the id remains, every other line-item is kept with all its copies, in order, and an absent id leaves the cart unchanged |
| StoreContext.RemoveKeepsInvariant | context/StoreContext.tsx:55-57 | removal keeps the cart invariant (unique ids, positive quantities) |
| StoreContext.RemoveOne | context/StoreContext.tsx:56 | with unique ids, removing a present id deletes exactly that position |
| StoreContext.CartQuantityUpdated | context/StoreContext.tsx:59-67 | a quantity of 0 or less equals removal; a positive quantity becomes the matching line-item's exact quantity, with everything else kept; an absent id leaves the cart unchanged |
| StoreContext.UpdateQuantityKeepsInvariant | context/StoreContext.tsx:59-67 | setting a quantity keeps the cart invariant for every quantity |
| StoreContext.DecrementFromOneRemoves | context/StoreContext.tsx:60-62 | setting quantity 1 minus 1 removes the line-item, so the cart view's minus button at 1 removes it |
| Seqs.MapWhere | context/StoreContext.tsx:45-49 | the conditional `map` keeps the length, applies the update at exactly the positions whose key is the id, and leaves every other element as it was |
| StoreContext.TotalCartAmount | context/StoreContext.tsx:85 | the total of the empty cart is 0 |
| StoreContext.TotalAfterAdd | context/StoreContext.tsx:85 | adding raises the total by the price times the quantity: a new product's own price, or (given unique ids) the stored price of a present product, not the passed one |
| StoreContext.TotalAfterRemove | context/StoreContext.tsx:85 | with unique ids, removing a present line-item lowers the total by its price times quantity |
| StoreContext.TotalExample | context/StoreContext.tsx:85 | 2 at 10.00 plus 3 at 5.00 totals exactly 35.00 |
| StoreContext.ProductUpdated | context/StoreContext.tsx:75-77 | every entry with the product's id is replaced by the product; length, ids and all other entries are kept; unique ids stay unique |
| StoreContext.ProductDeleted | context/StoreContext.tsx:80 | no entry with the id remains, the others are kept with all their copies, in order; an absent id leaves the catalog unchanged; unique ids stay unique |
| StoreContext.AddProductUniqueness | context/StoreContext.tsx:71-73 | appending a product leaves ids unique if and only if they were unique and the new id was absent |
| StoreContext.DeleteProductConsistency | context/StoreContext.tsx:79-83 | deleting removes the id from both collections, keeps both invariants, and keeps every remaining line-item pointing at a catalog product |
| StoreContext.ActionKeepsInvariant | context/StoreContext.tsx:41-69 | each cart operation keeps the cart invariant when an add has a positive quantity |
| StoreContext.CartInvariantAlongActions | context/StoreContext.tsx:41-69 | any sequence of cart operations whose adds have positive quantities keeps the cart invariant |
| StoreContext.Store.constructor | context/StoreContext.tsx:22-30 | each collection starts from its saved value, or, when nothing is saved, from the seed catalog (unique ids) and an empty cart (total 0) |
| StoreContext.Store.AddToCart | context/StoreContext.tsx:41-53 | the cart becomes `AddedToCart` of the old cart; the catalog is unchanged; unique ids and (for a positive quantity) positive quantities are kept |
| StoreContext.Store.RemoveFromCart | context/StoreContext.tsx:55-57 | the cart becomes `RemovedFromCart` of the old cart; the catalog is unchanged; the cart invariant is kept |
| StoreContext.Store.UpdateCartQuantity | context/StoreContext.tsx:59-67 | the cart becomes `CartQuantityUpdated` of the old cart; the catalog is unchanged; the cart invariant is kept |
| StoreContext.Store.ClearCart | context/StoreContext.tsx:69 | the cart is empty and its total is 0; the catalog is unchanged |
| StoreContext.Store.AddProduct | context/StoreContext.tsx:71-73 | the product is appended to the catalog; the cart is unchanged |
| StoreContext.Store.UpdateProduct | context/StoreContext.tsx:75-77 | the catalog becomes `ProductUpdated` of the old one; the cart is not touched; unique ids are kept |
| StoreContext.Store.DeleteProduct | context/StoreContext.tsx:79-83 | the id is removed from the catalog and from the cart; the catalog ids, the cart invariant and referential consistency are kept |
| Navbar.CartCount | components/Navbar.tsx:12 | the count of the empty cart is 0; with positive quantities the count is at least the number of line-items |
| Navbar.BadgeVisible | components/Navbar.tsx:44 | the badge is shown when the count is positive, so an empty cart never shows it |
| Navbar.BadgeVisibleIffNonEmpty | components/Navbar.tsx:44 | with positive quantities, the badge shows exactly when the cart is not empty |
| Navbar.CountAfterAdd | components/Navbar.tsx:12 | adding a quantity raises the count by exactly that quantity (for a product already present, given unique ids) |
| Navbar.CountAfterRemove | components/Navbar.tsx:12 | with unique ids, removing a present line-item lowers the count by its quantity |
| HomePage.FilteredProducts | pages/Home.tsx:10-12 | 'All' gives the whole catalog unchanged; a specific category gives exactly the products of that category, every copy of each, in catalog order; the result is always a subsequence of the catalog |
| HomePage.Categories | pages/Home.tsx:14 | the choices are exactly 'All', 'Electronics', 'Fashion', 'Home', 'Beauty', 'Art', in that order |
| HomePage.CategoriesDistinct | pages/Home.tsx:14 | the six choices are pairwise distinct |
| HomePage.AtLeastOne | pages/Home.tsx:17 | the stored value is at least 1 and at least the given value, and it is either the given value or 1 |
| HomePage.SelectorValue | pages/Home.tsx:21 | a missing selector reads as 1; with valid selectors the value read is the stored one and is at least 1 |
| HomePage.MinusAtOneStaysOne | pages/Home.tsx:88 | pressing minus on a selector at 1 leaves it at 1 |
| HomePage.AddFromSelectorKeepsInvariant | pages/Home.tsx:20-22 | an add made with a selector value keeps the cart invariant |
| HomePage.HomeView.constructor | pages/Home.tsx:7-8 | the page starts on 'All' with no stored selectors |
| HomePage.HomeView.SelectCategory | pages/Home.tsx:44 | the selected category becomes the clicked one; the selectors are unchanged |
| HomePage.HomeView.HandleQuantityChange | pages/Home.tsx:16-18 | stores max(1, v) for the id and leaves every other selector alone; all selectors stay at least 1 |
| HomePage.HomeView.HandleAddToCart | pages/Home.tsx:20-26 | adds the product with its selector value, which is at least 1; resets that selector to 1 and leaves the others alone; keeps the cart invariant |

## Left out

- Browser storage and JSON (de)serialisation (context/StoreContext.tsx:22-39) are left out as I/O. The store's constructor receives each saved slot as an optional value, so only the "nothing saved means defaults" choice is modelled. A saved empty string counts as "nothing saved" in the code; that belongs to the serialisation layer and is not modelled.
- The React context and provider mechanism, and the error `useStore` raises outside a provider, are left out as framework plumbing.
- The optional AI description generator (services/gemini.ts) is left out: it is a network call to an external service.
- The admin form (pages/Admin.tsx) is left out: it parses numbers from text, uploads images, makes ids from the clock and shows alerts. The cart page (pages/Cart.tsx) and App.tsx are left out as rendering and page switching. Their calls into the store are modelled by the store operations.
- JSX, styling and the two-decimal price formatting are left out. Prices are exact integer cents, not floating-point numbers.
- Quantities, prices and sums are unbounded integers in the model. In the code they are JavaScript numbers (doubles), which are exact only up to 2^53. Above that, `item.cartQuantity + quantity` (context/StoreContext.tsx:47) and both `reduce`s (context/StoreContext.tsx:85, components/Navbar.tsx:12) round, so an add of 1 to a quantity of 2^53 leaves it unchanged, where `AddedToCart`, `CountAfterAdd` and `TotalAfterAdd` add exactly. The number input's `parseInt(...) || 1` (pages/Home.tsx:97) can also yield `Infinity` for a digit string of about 310 characters or more; infinities, fractions and NaN are not modelled.
- State updates are modelled as immediate assignments. React's functional updates (`setCart(prev => …)`) and its batching are not modelled. `deleteProduct`'s two setters are modelled as two assignments in sequence.
- Navbar.CountAfterAdd: for a product already in the cart, it requires unique cart ids. `map` adds the quantity to every line-item with that id, so a cart with duplicate ids would gain the quantity once per duplicate.
- StoreContext.TotalAfterAdd: for the same reason, it requires unique cart ids, but only for a product already in the cart.
