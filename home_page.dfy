/** The home page: which products the collection grid shows, which cards are featured, and the empty message. */
module HomePage {
  import opened Wrappers
  import opened Types
  import opened Seqs

  /** A product belongs to the collection when it is unsold and in one of the two categories. */
  predicate InCollection(p: Product) {
    (p.category == Originals || p.category == Merch) && !p.isSold
  }

  /** `collectionProducts` */
  function CollectionProducts(products: seq<Product>): (shown: seq<Product>)
    ensures forall i :: 0 <= i < |shown| ==> !shown[i].isSold
  {
    Filter(products, InCollection)
  }

  /** Every unsold product is shown, and nothing that is not in the list. */
  lemma CollectionMembers(products: seq<Product>, p: Product)
    ensures p in CollectionProducts(products) <==> p in products && !p.isSold
  {
    FilterSubset(products, InCollection);
    FilterComplete(products, InCollection);
  }

  /** A card is featured (two columns and two rows wide) at every fifth position, starting with the first. */
  predicate Featured(idx: nat) {
    idx % 5 == 0
  }

  /** One card of the grid. */
  datatype Card = Card(product: Product, featured: bool)

  datatype HomeView = Loading | Collection(cards: seq<Card>, emptyMessage: bool)

  function Cards(shown: seq<Product>): (cards: seq<Card>)
    ensures |cards| == |shown|
    ensures forall i :: 0 <= i < |cards| ==> cards[i].product == shown[i] && (cards[i].featured <==> i % 5 == 0)
  {
    seq(|shown|, (i: int) requires 0 <= i < |shown| => Card(shown[i], Featured(i)))
  }

  /** The page while the products load, and once they have loaded. */
  function View(products: Option<seq<Product>>): (v: HomeView)
    ensures v.Loading? <==> products.None?
    ensures products.Some? ==> v.cards == Cards(CollectionProducts(products.value))
    ensures products.Some? ==> (v.emptyMessage <==> v.cards == [])
  {
    match products
    case None => Loading
    case Some(ps) =>
      var cards := Cards(CollectionProducts(ps));
      Collection(cards, |CollectionProducts(ps)| == 0)
  }

  /** The number of featured cards among the first `n`. */
  function FeaturedCount(n: nat): nat {
    if n == 0 then 0 else FeaturedCount(n - 1) + (if Featured(n - 1) then 1 else 0)
  }

  /** One card in five is featured, rounding up: the first card always is. */
  lemma {:induction false} FeaturedShare(n: nat)
    ensures FeaturedCount(n) == (n + 4) / 5
  {
    if n > 0 {
      FeaturedShare(n - 1);
    }
  }
}
