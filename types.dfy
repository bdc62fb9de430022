/** Record shapes of the storefront (types.ts). */
module Types {

  datatype Option<T> = None | Some(value: T)

  /** A catalog entry. `price` is held exactly, in integer cents (89.99 is 8999);
      `quantity` is the stock on hand; `category` is a free string, as the
      record type does not restrict it to the `Category` values. */
  datatype Product = Product(
    id: string,
    name: string,
    price: int,
    quantity: int,
    description: string,
    category: string,
    image: string)

  /** A cart line-item: every field of the product it was made from, plus the
      quantity chosen for purchase. */
  datatype CartItem = CartItem(product: Product, cartQuantity: int)

  /** The key by which catalog entries are matched. */
  function ProductId(p: Product): string { p.id }

  /** The key by which line-items are matched: the product's identifier. */
  function ItemId(item: CartItem): string { item.product.id }

  /** The fixed category enumeration. */
  datatype Category = Electronics | Fashion | Home | Beauty | Art {
    /** The string value each enumeration member stands for. */
    function Value(): string {
      match this
      case Electronics => "Electronics"
      case Fashion => "Fashion"
      case Home => "Home"
      case Beauty => "Beauty"
      case Art => "Art"
    }
  }

  /** The enumeration's members in declaration order (what `Object.values`
      yields for a string enum). */
  function CategoryValues(): (r: seq<Category>)
    ensures |r| == 5
  {
    [Electronics, Fashion, Home, Beauty, Art]
  }

  /** The enumeration's string values are pairwise distinct. */
  lemma CategoryValuesDistinct()
    ensures forall i, j :: 0 <= i < j < |CategoryValues()| ==>
      CategoryValues()[i].Value() != CategoryValues()[j].Value()
  {
    var r := CategoryValues();
    assert r[0].Value() == "Electronics" && r[1].Value() == "Fashion" && r[2].Value() == "Home";
    assert r[3].Value() == "Beauty" && r[4].Value() == "Art";
  }

  /** Whether a free-form category string names a member of the enumeration. */
  predicate IsCategoryValue(s: string) {
    exists c: Category :: c.Value() == s
  }
}
