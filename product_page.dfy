/**
 * The product page: which product the route shows, its series variants and related works,
 * and whether it can be added to the cart.
 */
module ProductPage {
  import opened Wrappers
  import opened Types
  import opened Seqs
  import CartEngine

  /** The first product whose id equals `id`. */
  function FindById(products: seq<Product>, id: string): (r: Option<nat>)
    ensures r.Some? ==> (r.value < |products| && products[r.value].id == id
      && forall k :: 0 <= k < r.value ==> products[k].id != id)
    ensures r.None? ==> forall k :: 0 <= k < |products| ==> products[k].id != id
  {
    if products == [] then None
    else if products[0].id == id then Some(0)
    else match FindById(products[1..], id)
      case None => None
      case Some(k) => Some(k + 1)
  }

  /** `products.find(p => p._id === id) || products[0]`: the matching product, else the first, else none. */
  function SelectProduct(products: seq<Product>, id: string): (r: Option<Product>)
    ensures r.None? <==> products == []
    ensures (exists k :: 0 <= k < |products| && products[k].id == id) ==> r.Some? && r.value.id == id
    ensures (forall k :: 0 <= k < |products| ==> products[k].id != id) && products != [] ==> r == Some(products[0])
    ensures r.Some? ==> r.value in products
  {
    match FindById(products, id)
    case Some(k) => Some(products[k])
    case None => if products == [] then None else Some(products[0])
  }

  /** What the page renders: a skeleton while loading, "not found", or the product. */
  datatype PageView = Skeleton | NotFound | Detail(product: Product)

  function View(products: Option<seq<Product>>, id: string): (v: PageView)
    ensures v.Skeleton? <==> products.None?
    ensures v.NotFound? <==> products == Some([])
    ensures v.Detail? ==> v.product in products.value
  {
    match products
    case None => Skeleton
    case Some(ps) =>
      match SelectProduct(ps, id)
      case None => NotFound
      case Some(p) => Detail(p)
  }

  /** `seriesProducts`: the other products of the product's series, none when it has no series. */
  function SeriesProducts(all: seq<Product>, product: Product): (r: seq<Product>)
    ensures forall i :: 0 <= i < |r| ==> r[i].seriesId == product.seriesId && r[i].id != product.id
    ensures !Truthy(product.seriesId) ==> r == []
  {
    if Truthy(product.seriesId) then Filter(all, (p: Product) => p.seriesId == product.seriesId && p.id != product.id)
    else []
  }

  /** The relation that picks the related works. */
  predicate IsRelated(p: Product, product: Product) {
    p.category == product.category && p.id != product.id && !p.isSold
    && !(Truthy(product.seriesId) && p.seriesId == product.seriesId)
  }

  /** `relatedProducts` */
  function RelatedProducts(all: seq<Product>, product: Product): (r: seq<Product>)
    ensures forall i :: 0 <= i < |r| ==> IsRelated(r[i], product)
  {
    Filter(all, (p: Product) => IsRelated(p, product))
  }

  /** The related works are exactly the listed products in the same category, other than the product, unsold and outside its series. */
  lemma RelatedMembers(all: seq<Product>, product: Product, p: Product)
    ensures p in RelatedProducts(all, product) <==> p in all && IsRelated(p, product)
  {
    FilterSubset(all, (q: Product) => IsRelated(q, product));
    FilterComplete(all, (q: Product) => IsRelated(q, product));
  }

  /** The variants are exactly the other listed products of the same series. */
  lemma SeriesMembers(all: seq<Product>, product: Product, p: Product)
    requires Truthy(product.seriesId)
    ensures p in SeriesProducts(all, product) <==> p in all && p.seriesId == product.seriesId && p.id != product.id
  {
    FilterSubset(all, (q: Product) => q.seriesId == product.seriesId && q.id != product.id);
    FilterComplete(all, (q: Product) => q.seriesId == product.seriesId && q.id != product.id);
  }

  /** No product is both a variant and a related work. */
  lemma SeriesAndRelatedDisjoint(all: seq<Product>, product: Product, p: Product)
    ensures !(p in SeriesProducts(all, product) && p in RelatedProducts(all, product))
  {
    RelatedMembers(all, product, p);
  }

  /** `relatedProducts.slice(0, 4)`: at most four related works, the first ones in list order. */
  function ShownRelated(all: seq<Product>, product: Product): (r: seq<Product>)
    ensures |r| <= 4 && |r| <= |RelatedProducts(all, product)|
    ensures r == RelatedProducts(all, product)[..|r|]
    ensures |r| < 4 ==> r == RelatedProducts(all, product)
  {
    Take(RelatedProducts(all, product), 4)
  }

  /** The purchase button: disabled for a sold product, adding the product to the cart otherwise. */
  datatype PurchaseButton = AddToCart(product: Product) | SoldButton

  function Purchase(product: Product): (b: PurchaseButton)
    ensures b.SoldButton? <==> product.isSold
    ensures b.AddToCart? ==> b.product == product
  {
    if product.isSold then SoldButton else AddToCart(product)
  }

  /** Pressing an enabled purchase button leaves a line for the product in the cart and opens it. */
  method Press(b: PurchaseButton, cart: CartEngine.Cart)
    requires cart.Valid()
    modifies cart
    ensures cart.Valid()
    ensures b.SoldButton? ==> cart.items == old(cart.items) && cart.isOpen == old(cart.isOpen)
    ensures b.AddToCart? ==> CartEngine.HasId(cart.items, b.product.id) && cart.isOpen
  {
    if b.AddToCart? {
      cart.AddItem(b.product);
    }
  }
}
