/** The catalog browsing page (pages/Home.tsx): the category filter, the
    category choices and the per-product quantity selectors that feed
    `addToCart`. */
module HomePage {
  import opened Types
  import opened Seqs
  import opened StoreContext

  /** The filter choice that shows every product. */
  const All: string := "All"

  /** Whether a product passes the filter for a specific category. */
  function InCategory(category: string): Product -> bool {
    (p: Product) => p.category == category
  }

  /** `filteredProducts`: the whole catalog for 'All'; otherwise exactly the
      products of the selected category, in catalog order. */
  function FilteredProducts(products: seq<Product>, selectedCategory: string): (r: seq<Product>)
    ensures selectedCategory == All ==> r == products
    ensures selectedCategory != All ==> forall p :: p in r <==> p in products && p.category == selectedCategory
    ensures selectedCategory != All ==>
      forall p :: multiset(r)[p] == if p.category == selectedCategory then multiset(products)[p] else 0
    ensures IsSubsequence(r, products)
  {
    SubsequenceOfSelf(products);
    FilterIsSubsequence(products, InCategory(selectedCategory));
    FilterCounts(products, InCategory(selectedCategory));
    if selectedCategory == All then products
    else Filter(products, InCategory(selectedCategory))
  }

  /** `categories`: 'All' followed by the enumeration's values in declaration order. */
  function Categories(): (r: seq<string>)
    ensures r == ["All", "Electronics", "Fashion", "Home", "Beauty", "Art"]
  {
    [All] + seq(|CategoryValues()|, i requires 0 <= i < |CategoryValues()| => CategoryValues()[i].Value())
  }

  /** The six category choices are pairwise distinct, so each button selects
      a different filter. */
  lemma CategoriesDistinct()
    ensures forall i, j :: 0 <= i < j < |Categories()| ==> Categories()[i] != Categories()[j]
  {
    var r := Categories();
    CategoryValuesDistinct();
    assert r[1] == "Electronics" && r[2] == "Fashion" && r[3] == "Home" && r[4] == "Beauty" && r[5] == "Art";
  }

  /** `Math.max(1, val)`. */
  function AtLeastOne(val: int): (r: int)
    ensures r >= 1 && r >= val
    ensures r == val || r == 1
  {
    if val < 1 then 1 else val
  }

  /** Every stored selector value is at least 1. */
  ghost predicate SelectorsValid(quantities: map<string, int>) {
    forall id :: id in quantities ==> quantities[id] >= 1
  }

  /** `quantities[id] || 1`: the stored value, or 1 when none is stored (or
      the stored value is 0). With valid selectors this is at least 1. */
  function SelectorValue(quantities: map<string, int>, id: string): (r: int)
    ensures id !in quantities ==> r == 1
    ensures SelectorsValid(quantities) ==> r >= 1 && (id in quantities ==> r == quantities[id])
  {
    if id in quantities && quantities[id] != 0 then quantities[id] else 1
  }

  /** The minus button pressed at 1 leaves the selector at 1. */
  lemma MinusAtOneStaysOne(quantities: map<string, int>, id: string)
    requires SelectorValue(quantities, id) == 1
    ensures SelectorValue(quantities[id := AtLeastOne(SelectorValue(quantities, id) - 1)], id) == 1
  {
  }

  /** An add from this page keeps the cart invariant: the quantity it passes
      is a selector value, which is at least 1. */
  lemma AddFromSelectorKeepsInvariant(cart: seq<CartItem>, quantities: map<string, int>, product: Product)
    requires CartInvariant(cart) && SelectorsValid(quantities)
    ensures CartInvariant(AddedToCart(cart, product, SelectorValue(quantities, product.id)))
  {
    var q := SelectorValue(quantities, product.id);
    AddToCartKeepsUniqueIds(cart, product, q);
    AddToCartKeepsPositive(cart, product, q);
  }

  /** The page's own state: the selected filter and the quantity selectors. */
  class HomeView {
    var selectedCategory: string
    var quantities: map<string, int>

    ghost predicate Valid()
      reads this
    {
      SelectorsValid(quantities)
    }

    constructor ()
      ensures selectedCategory == All && quantities == map[]
      ensures Valid()
    {
      selectedCategory := All;
      quantities := map[];
    }

    /** A category button's click. */
    method SelectCategory(category: string)
      modifies this
      ensures selectedCategory == category
      ensures quantities == old(quantities)
    {
      selectedCategory := category;
    }

    /** `handleQuantityChange`: stores `max(1, val)` for `id`, nothing else. */
    method HandleQuantityChange(id: string, val: int)
      modifies this
      ensures quantities == old(quantities)[id := AtLeastOne(val)]
      ensures selectedCategory == old(selectedCategory)
      ensures old(Valid()) ==> Valid()
    {
      quantities := quantities[id := AtLeastOne(val)];
    }

    /** `handleAddToCart`: adds the product with its selector value, then
        resets that selector to 1. */
    method HandleAddToCart(store: Store, product: Product)
      modifies this, store
      ensures store.cart == AddedToCart(old(store.cart), product, SelectorValue(old(quantities), product.id))
      ensures store.products == old(store.products)
      ensures quantities == old(quantities)[product.id := 1]
      ensures selectedCategory == old(selectedCategory)
      ensures old(Valid()) ==> Valid() && SelectorValue(old(quantities), product.id) >= 1
      ensures old(Valid()) && old(CartInvariant(store.cart)) ==> CartInvariant(store.cart)
    {
      var qty := SelectorValue(quantities, product.id);
      if Valid() && CartInvariant(store.cart) {
        AddFromSelectorKeepsInvariant(store.cart, quantities, product);
      }
      store.AddToCart(product, qty);
      quantities := quantities[product.id := 1];
    }
  }
}
