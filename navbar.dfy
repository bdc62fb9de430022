/** The navigation bar's cart badge (components/Navbar.tsx). */
module Navbar {
  import opened Types
  import opened Seqs
  import opened StoreContext

  function Quantity(item: CartItem): int { item.cartQuantity }

  /** `cartCount`: the sum of the line-items' quantities, accumulated from 0.
      With positive quantities it is at least the number of line-items. */
  function CartCount(cart: seq<CartItem>): (r: int)
    ensures |cart| == 0 ==> r == 0
    ensures PositiveQuantities(cart) ==> r >= |cart|
  {
    SumAtLeastLength(cart, Quantity);
    Sum(cart, Quantity)
  }

  /** The badge is rendered when the count is positive; an empty cart shows none. */
  predicate BadgeVisible(cart: seq<CartItem>): (r: bool)
    ensures |cart| == 0 ==> !r
  {
    CartCount(cart) > 0
  }

  /** Under the cart invariant the badge shows exactly when the cart is not empty. */
  lemma BadgeVisibleIffNonEmpty(cart: seq<CartItem>)
    requires PositiveQuantities(cart)
    ensures BadgeVisible(cart) <==> |cart| > 0
  {
  }

  /** `addToCart(product, quantity)` raises the count by exactly `quantity`
      (for a product already present, given one line-item per identifier). */
  lemma CountAfterAdd(cart: seq<CartItem>, product: Product, quantity: int)
    requires !InCart(cart, product.id) || UniqueCartIds(cart)
    ensures CartCount(AddedToCart(cart, product, quantity)) == CartCount(cart) + quantity
  {
    var r := AddedToCart(cart, product, quantity);
    if InCart(cart, product.id) {
      var k :| 0 <= k < |cart| && ItemId(cart[k]) == product.id;
      AddToCartMergesOne(cart, product, quantity, k);
      SumChangeOne(cart, r, Quantity, k);
    } else {
      SumAppend(cart, [CartItem(product, quantity)], Quantity);
      SumCons([CartItem(product, quantity)], Quantity);
    }
  }

  /** Given one line-item per identifier, removing a present line-item lowers
      the count by its quantity. */
  lemma CountAfterRemove(cart: seq<CartItem>, k: int)
    requires UniqueCartIds(cart) && 0 <= k < |cart|
    ensures CartCount(RemovedFromCart(cart, ItemId(cart[k]))) == CartCount(cart) - cart[k].cartQuantity
  {
    RemoveOne(cart, k);
    SumDropOne(cart, Quantity, k);
  }
}
