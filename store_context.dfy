/** The shared store (context/StoreContext.tsx): the product catalog and the
    cart of line-items, and the operations that rewrite them. Each operation
    builds its new collection purely; `Store` holds the two collections and
    assigns them, as the provider's state setters do. */
module StoreContext {
  import opened Types
  import opened Seqs
  import Constants

  /** `cart.find(item => item.id === id)` finds a line-item. */
  predicate InCart(cart: seq<CartItem>, id: string) {
    HasKey(cart, ItemId, id)
  }

  /** At most one line-item per product identifier. */
  ghost predicate UniqueCartIds(cart: seq<CartItem>) {
    UniqueKeys(cart, ItemId)
  }

  /** At most one catalog entry per product identifier. */
  ghost predicate UniqueProductIds(products: seq<Product>) {
    UniqueKeys(products, ProductId)
  }

  /** Every line-item asks for a strictly positive quantity. */
  ghost predicate PositiveQuantities(cart: seq<CartItem>) {
    forall i :: 0 <= i < |cart| ==> cart[i].cartQuantity > 0
  }

  /** The cart invariant: one line-item per product, each with a positive quantity. */
  ghost predicate CartInvariant(cart: seq<CartItem>) {
    UniqueCartIds(cart) && PositiveQuantities(cart)
  }

  /** Every line-item refers to a product that is in the catalog. */
  ghost predicate CartInCatalog(cart: seq<CartItem>, products: seq<Product>) {
    forall i :: 0 <= i < |cart| ==> HasKey(products, ProductId, ItemId(cart[i]))
  }

  // ----- The cart -----

  /** `{ ...item, cartQuantity: item.cartQuantity + quantity }`. */
  function AddQuantity(quantity: int): CartItem -> CartItem {
    (item: CartItem) => item.(cartQuantity := item.cartQuantity + quantity)
  }

  /** `{ ...item, cartQuantity: quantity }`. */
  function SetQuantity(quantity: int): CartItem -> CartItem {
    (item: CartItem) => item.(cartQuantity := quantity)
  }

  /** `addToCart`: a line-item already present for the product gets `quantity`
      more and keeps its stored product fields; otherwise one new line-item is
      appended at the end. The quantity is not clamped. */
  function AddedToCart(cart: seq<CartItem>, product: Product, quantity: int): (r: seq<CartItem>)
    ensures InCart(cart, product.id) ==>
      |r| == |cart| &&
      forall i :: 0 <= i < |r| ==>
        r[i].product == cart[i].product &&
        r[i].cartQuantity == cart[i].cartQuantity + (if ItemId(cart[i]) == product.id then quantity else 0)
    ensures !InCart(cart, product.id) ==> r == cart + [CartItem(product, quantity)]
  {
    if InCart(cart, product.id) then MapWhere(cart, ItemId, product.id, AddQuantity(quantity))
    else cart + [CartItem(product, quantity)]
  }

  /** `removeFromCart`: every line-item for `id` is dropped, the others stay in order. */
  function RemovedFromCart(cart: seq<CartItem>, id: string): (r: seq<CartItem>)
    ensures !InCart(r, id)
    ensures forall x :: x in r <==> x in cart && ItemId(x) != id
    ensures forall x :: multiset(r)[x] == if ItemId(x) != id then multiset(cart)[x] else 0
    ensures IsSubsequence(r, cart)
    ensures !InCart(cart, id) ==> r == cart
  {
    Without(cart, ItemId, id)
  }

  /** `updateCartQuantity`: a non-positive quantity removes the line-item; a
      positive one becomes its quantity; an absent identifier changes nothing. */
  function CartQuantityUpdated(cart: seq<CartItem>, id: string, quantity: int): (r: seq<CartItem>)
    ensures quantity <= 0 ==> r == RemovedFromCart(cart, id)
    ensures quantity > 0 ==>
      |r| == |cart| &&
      forall i :: 0 <= i < |r| ==>
        r[i].product == cart[i].product &&
        r[i].cartQuantity == (if ItemId(cart[i]) == id then quantity else cart[i].cartQuantity)
    ensures !InCart(cart, id) ==> r == cart
  {
    if quantity <= 0 then RemovedFromCart(cart, id)
    else MapWhere(cart, ItemId, id, SetQuantity(quantity))
  }

  /** The amount one line-item contributes to the total, in cents. */
  function LineAmount(item: CartItem): int {
    item.product.price * item.cartQuantity
  }

  /** `totalCartAmount`: the sum of price times quantity over the cart. */
  function TotalCartAmount(cart: seq<CartItem>): (r: int)
    ensures |cart| == 0 ==> r == 0
  {
    Sum(cart, LineAmount)
  }

  // ----- The catalog -----

  /** `updateProduct`: every entry with the product's identifier is replaced
      by it; the length and every other entry are kept. */
  function ProductUpdated(products: seq<Product>, product: Product): (r: seq<Product>)
    ensures |r| == |products|
    ensures forall i :: 0 <= i < |r| ==> r[i] == if products[i].id == product.id then product else products[i]
    ensures forall i :: 0 <= i < |r| ==> r[i].id == products[i].id
    ensures UniqueProductIds(products) ==> UniqueProductIds(r)
  {
    MapWhere(products, ProductId, product.id, (_: Product) => product)
  }

  /** `deleteProduct`'s new catalog: every entry with `id` is dropped. */
  function ProductDeleted(products: seq<Product>, id: string): (r: seq<Product>)
    ensures !HasKey(r, ProductId, id)
    ensures forall x :: x in r <==> x in products && x.id != id
    ensures forall x :: multiset(r)[x] == if x.id != id then multiset(products)[x] else 0
    ensures IsSubsequence(r, products)
    ensures !HasKey(products, ProductId, id) ==> r == products
    ensures UniqueProductIds(products) ==> UniqueProductIds(r)
  {
    Without(products, ProductId, id)
  }

  // ----- Properties of the cart operations -----

  /** With unique identifiers, adding a product already in the cart changes
      only its line-item, and only by `quantity`. */
  lemma AddToCartMergesOne(cart: seq<CartItem>, product: Product, quantity: int, k: int)
    requires UniqueCartIds(cart)
    requires 0 <= k < |cart| && ItemId(cart[k]) == product.id
    ensures AddedToCart(cart, product, quantity) ==
      cart[k := CartItem(cart[k].product, cart[k].cartQuantity + quantity)]
  {
    var r := AddedToCart(cart, product, quantity);
    assert InCart(cart, product.id);
    forall i | 0 <= i < |cart| ensures r[i] == cart[k := CartItem(cart[k].product, cart[k].cartQuantity + quantity)][i] {
      if i != k {
        assert ItemId(cart[i]) != product.id;
      }
    }
  }

  lemma AddToCartKeepsUniqueIds(cart: seq<CartItem>, product: Product, quantity: int)
    requires UniqueCartIds(cart)
    ensures UniqueCartIds(AddedToCart(cart, product, quantity))
  {
    var r := AddedToCart(cart, product, quantity);
    if InCart(cart, product.id) {
      assert forall i :: 0 <= i < |r| ==> ItemId(r[i]) == ItemId(cart[i]);
    } else {
      UniqueAppend(cart, CartItem(product, quantity), ItemId);
    }
  }

  lemma AddToCartKeepsPositive(cart: seq<CartItem>, product: Product, quantity: int)
    requires PositiveQuantities(cart) && quantity > 0
    ensures PositiveQuantities(AddedToCart(cart, product, quantity))
  {
    var r := AddedToCart(cart, product, quantity);
    if !InCart(cart, product.id) {
      assert forall i :: 0 <= i < |cart| ==> r[i] == cart[i];
    }
  }

  /** Without clamping, a non-positive quantity for a new product puts a
      non-positive line-item in the cart. */
  lemma AddToCartDoesNotClamp(cart: seq<CartItem>, product: Product, quantity: int)
    requires !InCart(cart, product.id) && quantity <= 0
    ensures !PositiveQuantities(AddedToCart(cart, product, quantity))
  {
    var r := AddedToCart(cart, product, quantity);
    assert r[|cart|].cartQuantity == quantity;
  }

  /** Two adds of one product to an empty cart give a single line-item with the summed quantity. */
  lemma AddTwiceMerges(product: Product)
    ensures AddedToCart(AddedToCart([], product, 2), product, 3) == [CartItem(product, 5)]
  {
    var once := AddedToCart([], product, 2);
    assert once == [CartItem(product, 2)];
    assert ItemId(once[0]) == product.id;
  }

  lemma RemoveKeepsInvariant(cart: seq<CartItem>, id: string)
    requires CartInvariant(cart)
    ensures CartInvariant(RemovedFromCart(cart, id))
  {
    var r := RemovedFromCart(cart, id);
    forall i | 0 <= i < |r| ensures r[i].cartQuantity > 0 {
      assert r[i] in cart;
    }
  }

  lemma UpdateQuantityKeepsInvariant(cart: seq<CartItem>, id: string, quantity: int)
    requires CartInvariant(cart)
    ensures CartInvariant(CartQuantityUpdated(cart, id, quantity))
  {
    var r := CartQuantityUpdated(cart, id, quantity);
    if quantity <= 0 {
      RemoveKeepsInvariant(cart, id);
    } else {
      assert forall i :: 0 <= i < |r| ==> ItemId(r[i]) == ItemId(cart[i]);
    }
  }

  /** The cart view's minus button on a line-item of quantity 1 removes it. */
  lemma DecrementFromOneRemoves(cart: seq<CartItem>, k: int)
    requires 0 <= k < |cart| && cart[k].cartQuantity == 1
    ensures CartQuantityUpdated(cart, ItemId(cart[k]), cart[k].cartQuantity - 1) == RemovedFromCart(cart, ItemId(cart[k]))
    ensures !InCart(CartQuantityUpdated(cart, ItemId(cart[k]), cart[k].cartQuantity - 1), ItemId(cart[k]))
  {
  }

  /** With unique identifiers, removing a present line-item removes exactly that position. */
  lemma RemoveOne(cart: seq<CartItem>, k: int)
    requires UniqueCartIds(cart) && 0 <= k < |cart|
    ensures RemovedFromCart(cart, ItemId(cart[k])) == cart[..k] + cart[k + 1..]
  {
    WithoutOne(cart, ItemId, k);
  }

  // ----- Properties of the catalog operations -----

  /** `addProduct` performs no check: the catalog stays duplicate-free exactly
      when the new identifier was not already present. */
  lemma AddProductUniqueness(products: seq<Product>, product: Product)
    ensures UniqueProductIds(products + [product]) <==>
      UniqueProductIds(products) && !HasKey(products, ProductId, product.id)
  {
    UniqueAppend(products, product, ProductId);
  }

  /** `deleteProduct` removes the identifier from both collections, keeps both
      invariants and keeps every remaining line-item pointing into the catalog. */
  lemma DeleteProductConsistency(products: seq<Product>, cart: seq<CartItem>, id: string)
    requires UniqueProductIds(products) && CartInvariant(cart) && CartInCatalog(cart, products)
    ensures !HasKey(ProductDeleted(products, id), ProductId, id)
    ensures !InCart(RemovedFromCart(cart, id), id)
    ensures UniqueProductIds(ProductDeleted(products, id))
    ensures CartInvariant(RemovedFromCart(cart, id))
    ensures CartInCatalog(RemovedFromCart(cart, id), ProductDeleted(products, id))
  {
    var ps, c := ProductDeleted(products, id), RemovedFromCart(cart, id);
    RemoveKeepsInvariant(cart, id);
    forall i | 0 <= i < |c| ensures HasKey(ps, ProductId, ItemId(c[i])) {
      assert c[i] in cart;
      var m :| 0 <= m < |cart| && cart[m] == c[i];
      var j :| 0 <= j < |products| && ProductId(products[j]) == ItemId(cart[m]);
      assert products[j] in ps;
      var n :| 0 <= n < |ps| && ps[n] == products[j];
    }
  }

  // ----- The total -----

  /** `addToCart` raises the total by the price the cart holds for the product
      times the quantity: the passed product's price when it is new, the stored
      price (given one line-item per identifier) when it is present. */
  lemma TotalAfterAdd(cart: seq<CartItem>, product: Product, quantity: int)
    requires !InCart(cart, product.id) || UniqueCartIds(cart)
    ensures !InCart(cart, product.id) ==>
      TotalCartAmount(AddedToCart(cart, product, quantity)) == TotalCartAmount(cart) + product.price * quantity
    ensures forall k :: 0 <= k < |cart| && ItemId(cart[k]) == product.id ==>
      TotalCartAmount(AddedToCart(cart, product, quantity)) == TotalCartAmount(cart) + cart[k].product.price * quantity
  {
    var r := AddedToCart(cart, product, quantity);
    if !InCart(cart, product.id) {
      SumAppend(cart, [CartItem(product, quantity)], LineAmount);
      SumCons([CartItem(product, quantity)], LineAmount);
    }
    forall k | 0 <= k < |cart| && ItemId(cart[k]) == product.id
      ensures TotalCartAmount(r) == TotalCartAmount(cart) + cart[k].product.price * quantity
    {
      AddToCartMergesOne(cart, product, quantity, k);
      SumChangeOne(cart, r, LineAmount, k);
      var p, q := cart[k].product.price, cart[k].cartQuantity;
      assert p * (q + quantity) == p * q + p * quantity;
    }
  }

  /** With unique identifiers, removing a present line-item lowers the total by its amount. */
  lemma TotalAfterRemove(cart: seq<CartItem>, k: int)
    requires UniqueCartIds(cart) && 0 <= k < |cart|
    ensures TotalCartAmount(RemovedFromCart(cart, ItemId(cart[k]))) == TotalCartAmount(cart) - LineAmount(cart[k])
  {
    RemoveOne(cart, k);
    SumDropOne(cart, LineAmount, k);
  }

  /** A cart of 2 at $10.00 and 3 at $5.00 totals $35.00. */
  lemma TotalExample(a: Product, b: Product)
    requires a.price == 1000 && b.price == 500
    ensures TotalCartAmount([CartItem(a, 2), CartItem(b, 3)]) == 3500
  {
    var cart := [CartItem(a, 2), CartItem(b, 3)];
    SumCons(cart, LineAmount);
    SumCons(cart[1..], LineAmount);
  }

  // ----- Sequences of cart operations -----

  /** One cart operation as a caller issues it. */
  datatype CartAction =
    | Add(product: Product, quantity: int)
    | Remove(id: string)
    | UpdateQuantity(id: string, quantity: int)
    | Clear

  function ApplyCartAction(cart: seq<CartItem>, action: CartAction): seq<CartItem> {
    match action
    case Add(product, quantity) => AddedToCart(cart, product, quantity)
    case Remove(id) => RemovedFromCart(cart, id)
    case UpdateQuantity(id, quantity) => CartQuantityUpdated(cart, id, quantity)
    case Clear => []
  }

  function ApplyCartActions(cart: seq<CartItem>, actions: seq<CartAction>): seq<CartItem>
    decreases |actions|
  {
    if |actions| == 0 then cart else ApplyCartActions(ApplyCartAction(cart, actions[0]), actions[1..])
  }

  /** One cart operation keeps the cart invariant, provided an add asks for a
      positive quantity. */
  lemma ActionKeepsInvariant(cart: seq<CartItem>, action: CartAction)
    requires CartInvariant(cart)
    requires action.Add? ==> action.quantity > 0
    ensures CartInvariant(ApplyCartAction(cart, action))
  {
    match action
    case Add(product, quantity) =>
      AddToCartKeepsUniqueIds(cart, product, quantity);
      AddToCartKeepsPositive(cart, product, quantity);
    case Remove(id) =>
      RemoveKeepsInvariant(cart, id);
    case UpdateQuantity(id, quantity) =>
      UpdateQuantityKeepsInvariant(cart, id, quantity);
    case Clear =>
  }

  /** Any sequence of cart operations keeps the cart invariant, provided every
      add asks for a positive quantity. */
  lemma {:induction false} CartInvariantAlongActions(cart: seq<CartItem>, actions: seq<CartAction>)
    requires CartInvariant(cart)
    requires forall i :: 0 <= i < |actions| && actions[i].Add? ==> actions[i].quantity > 0
    ensures CartInvariant(ApplyCartActions(cart, actions))
    decreases |actions|
  {
    if |actions| > 0 {
      ActionKeepsInvariant(cart, actions[0]);
      assert forall i :: 0 <= i < |actions[1..]| ==> actions[1..][i] == actions[i + 1];
      CartInvariantAlongActions(ApplyCartAction(cart, actions[0]), actions[1..]);
    }
  }

  // ----- The store -----

  /** The provider's state: the catalog and the cart. */
  class Store {
    var products: seq<Product>
    var cart: seq<CartItem>

    /** Each collection starts from its saved value, or from its default
        (the seed catalog, an empty cart) when nothing was saved. */
    constructor (savedProducts: Option<seq<Product>>, savedCart: Option<seq<CartItem>>)
      ensures products == if savedProducts.Some? then savedProducts.value else Constants.InitialProducts()
      ensures cart == if savedCart.Some? then savedCart.value else []
      ensures savedProducts.None? ==> UniqueProductIds(products)
      ensures savedCart.None? ==> CartInvariant(cart) && TotalCartAmount(cart) == 0
    {
      products := if savedProducts.Some? then savedProducts.value else Constants.InitialProducts();
      cart := if savedCart.Some? then savedCart.value else [];
    }

    method AddToCart(product: Product, quantity: int)
      modifies this
      ensures cart == AddedToCart(old(cart), product, quantity)
      ensures products == old(products)
      ensures old(UniqueCartIds(cart)) ==> UniqueCartIds(cart)
      ensures old(PositiveQuantities(cart)) && quantity > 0 ==> PositiveQuantities(cart)
    {
      if UniqueCartIds(cart) {
        AddToCartKeepsUniqueIds(cart, product, quantity);
      }
      if PositiveQuantities(cart) && quantity > 0 {
        AddToCartKeepsPositive(cart, product, quantity);
      }
      cart := AddedToCart(cart, product, quantity);
    }

    method RemoveFromCart(productId: string)
      modifies this
      ensures cart == RemovedFromCart(old(cart), productId)
      ensures products == old(products)
      ensures old(CartInvariant(cart)) ==> CartInvariant(cart)
    {
      if CartInvariant(cart) {
        RemoveKeepsInvariant(cart, productId);
      }
      cart := RemovedFromCart(cart, productId);
    }

    method UpdateCartQuantity(productId: string, quantity: int)
      modifies this
      ensures cart == CartQuantityUpdated(old(cart), productId, quantity)
      ensures products == old(products)
      ensures old(CartInvariant(cart)) ==> CartInvariant(cart)
    {
      if CartInvariant(cart) {
        UpdateQuantityKeepsInvariant(cart, productId, quantity);
      }
      if quantity <= 0 {
        RemoveFromCart(productId);
        return;
      }
      cart := MapWhere(cart, ItemId, productId, SetQuantity(quantity));
    }

    method ClearCart()
      modifies this
      ensures cart == [] && products == old(products)
      ensures CartInvariant(cart) && TotalCartAmount(cart) == 0
    {
      cart := [];
    }

    method AddProduct(product: Product)
      modifies this
      ensures products == old(products) + [product]
      ensures cart == old(cart)
    {
      products := products + [product];
    }

    method UpdateProduct(product: Product)
      modifies this
      ensures products == ProductUpdated(old(products), product)
      ensures cart == old(cart)
      ensures old(UniqueProductIds(products)) ==> UniqueProductIds(products)
    {
      products := ProductUpdated(products, product);
    }

    method DeleteProduct(productId: string)
      modifies this
      ensures products == ProductDeleted(old(products), productId)
      ensures cart == RemovedFromCart(old(cart), productId)
      ensures old(UniqueProductIds(products) && CartInvariant(cart) && CartInCatalog(cart, products)) ==>
        UniqueProductIds(products) && CartInvariant(cart) && CartInCatalog(cart, products)
    {
      if UniqueProductIds(products) && CartInvariant(cart) && CartInCatalog(cart, products) {
        DeleteProductConsistency(products, cart, productId);
      }
      products := ProductDeleted(products, productId);
      cart := RemovedFromCart(cart, productId);
    }
  }
}
