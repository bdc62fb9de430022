/** The seed catalog (constants.ts), used when nothing has been saved. */
module Constants {
  import opened Types
  import opened Seqs

  const DeskLamp := Product(
    id := "1",
    name := "Minimalist Desk Lamp",
    price := 8999,
    quantity := 15,
    description := "A sleek, adjustable desk lamp with warm LED lighting, perfect for late-night study sessions.",
    category := Home.Value(),
    image := "https://picsum.photos/400/400?random=1")

  const CeramicVase := Product(
    id := "2",
    name := "Pastel Ceramic Vase",
    price := 4500,
    quantity := 8,
    description := "Handcrafted ceramic vase in a soft blush pink finish. Adds a touch of elegance to any room.",
    category := Art.Value(),
    image := "https://picsum.photos/400/400?random=2")

  const Headphones := Product(
    id := "3",
    name := "Wireless Noise-Canceling Headphones",
    price := 19950,
    quantity := 20,
    description := "Immerse yourself in music with these high-fidelity wireless headphones featuring active noise cancellation.",
    category := Electronics.Value(),
    image := "https://picsum.photos/400/400?random=3")

  const CottonTee := Product(
    id := "4",
    name := "Organic Cotton Tee",
    price := 2999,
    quantity := 50,
    description := "Soft, breathable organic cotton t-shirt available in earth tones. Sustainable fashion choice.",
    category := Fashion.Value(),
    image := "https://picsum.photos/400/400?random=4")

  /** `INITIAL_PRODUCTS`, prices in cents. */
  function InitialProducts(): (r: seq<Product>)
    ensures |r| == 4
    ensures UniqueKeys(r, ProductId)
    ensures forall i :: 0 <= i < |r| ==> IsCategoryValue(r[i].category)
    ensures forall i :: 0 <= i < |r| ==> r[i].price >= 0 && r[i].quantity >= 0
  {
    var r := [DeskLamp, CeramicVase, Headphones, CottonTee];
    assert UniqueKeys(r, ProductId) by {
      assert r[0].id == "1" && r[1].id == "2" && r[2].id == "3" && r[3].id == "4";
    }
    assert IsCategoryValue(r[0].category) by { assert r[0].category == Home.Value(); }
    assert IsCategoryValue(r[1].category) by { assert r[1].category == Art.Value(); }
    assert IsCategoryValue(r[2].category) by { assert r[2].category == Electronics.Value(); }
    assert IsCategoryValue(r[3].category) by { assert r[3].category == Fashion.Value(); }
    r
  }
}
