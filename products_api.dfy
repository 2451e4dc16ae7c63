/**
 * The `products` table and its server functions: the filtered listing, the grouping by series,
 * the resolution of image references to URLs, and the create, patch and delete mutations.
 * The table is the sequence of documents in creation order.
 */
module ProductsApi {
  import opened Wrappers
  import opened Types
  import opened Seqs
  import opened JsText

  /** Which products a listing keeps: `isSold` decides when given, otherwise `category` when given, otherwise all. */
  predicate Listed(p: Product, category: Option<Category>, isSold: Option<bool>) {
    if isSold.Some? then p.isSold == isSold.value
    else category.Some? ==> p.category == category.value
  }

  /** `listProducts({category, isSold})` over the table: newest first, then filtered. */
  function ListProducts(table: seq<Product>, category: Option<Category>, isSold: Option<bool>): (r: seq<Product>)
    ensures |r| <= |table|
    ensures forall i :: 0 <= i < |r| ==> Listed(r[i], category, isSold)
    ensures isSold.None? && category.None? ==> r == Reversed(table)
  {
    var newest := Reversed(table);
    if isSold.Some? then Filter(newest, (p: Product) => p.isSold == isSold.value)
    else if category.Some? then Filter(newest, (p: Product) => p.category == category.value)
    else newest
  }

  /** The listing holds exactly the table's products that pass the filter. */
  lemma ListProductsMembers(table: seq<Product>, category: Option<Category>, isSold: Option<bool>, p: Product)
    ensures p in ListProducts(table, category, isSold) <==> p in table && Listed(p, category, isSold)
  {
    var newest := Reversed(table);
    ReversedMembers(table, p);
    var keep := (q: Product) => Listed(q, category, isSold);
    FilterSubset(newest, keep);
    FilterComplete(newest, keep);
    if isSold.Some? {
      FilterCongruent(newest, keep, (q: Product) => q.isSold == isSold.value);
    } else if category.Some? {
      FilterCongruent(newest, keep, (q: Product) => q.category == category.value);
    }
  }

  /** When `isSold` is given the category argument has no effect. */
  lemma SoldFilterIgnoresCategory(table: seq<Product>, c1: Option<Category>, c2: Option<Category>, sold: bool)
    ensures ListProducts(table, c1, Some(sold)) == ListProducts(table, c2, Some(sold))
  {
  }

  function ListedBy(category: Option<Category>, isSold: Option<bool>): Product -> bool {
    (p: Product) => Listed(p, category, isSold)
  }

  /** Whatever the arguments, the listing is one filter over the newest-first table. */
  lemma ListProductsIsFilter(table: seq<Product>, category: Option<Category>, isSold: Option<bool>)
    ensures ListProducts(table, category, isSold) == Filter(Reversed(table), ListedBy(category, isSold))
  {
    var newest := Reversed(table);
    if isSold.Some? {
      FilterCongruent(newest, ListedBy(category, isSold), (q: Product) => q.isSold == isSold.value);
    } else if category.Some? {
      FilterCongruent(newest, ListedBy(category, isSold), (q: Product) => q.category == category.value);
    } else {
      FilterKeepsAll(newest, ListedBy(category, isSold));
    }
  }

  /** The listing keeps the newest-first order: its entries sit at strictly increasing positions of the reversed table. */
  lemma ListProductsKeepsOrder(table: seq<Product>, category: Option<Category>, isSold: Option<bool>)
    ensures var r, newest := ListProducts(table, category, isSold), Reversed(table);
      exists ix: seq<nat> :: |ix| == |r|
        && (forall i :: 0 <= i < |ix| ==> ix[i] < |newest| && r[i] == newest[ix[i]])
        && (forall i, j :: 0 <= i < j < |ix| ==> ix[i] < ix[j])
  {
    ListProductsIsFilter(table, category, isSold);
    var ix := KeptIndices(Reversed(table), ListedBy(category, isSold));
    assert |ix| == |ListProducts(table, category, isSold)|;
  }

  /** `{ _id, name }` of a product in a series group. */
  datatype SeriesMember = SeriesMember(id: string, name: string)

  /** One entry of `getAllSeries`. */
  datatype SeriesGroup = SeriesGroup(seriesId: string, products: seq<SeriesMember>)

  function Member(p: Product): SeriesMember {
    SeriesMember(p.id, p.name)
  }

  function InSeries(key: string): Product -> bool {
    (p: Product) => p.seriesId == Some(key)
  }

  /** The distinct truthy series ids of `ps`, in the order of their first appearance. */
  function SeriesKeys(ps: seq<Product>): seq<string>
    decreases |ps|
  {
    if ps == [] then []
    else
      var keys, p := SeriesKeys(ps[..|ps| - 1]), ps[|ps| - 1];
      if Truthy(p.seriesId) && p.seriesId.value !in keys then keys + [p.seriesId.value] else keys
  }

  /** A key is listed exactly when some product carries it as a non-empty series id. */
  lemma {:induction false} SeriesKeysExactly(ps: seq<Product>, key: string)
    ensures key in SeriesKeys(ps) <==> key != "" && exists i :: 0 <= i < |ps| && ps[i].seriesId == Some(key)
  {
    if ps != [] {
      var init := ps[..|ps| - 1];
      SeriesKeysExactly(init, key);
      if key != "" && exists i :: 0 <= i < |ps| && ps[i].seriesId == Some(key) {
        var i :| 0 <= i < |ps| && ps[i].seriesId == Some(key);
        if i < |ps| - 1 {
          assert init[i] == ps[i];
        }
      }
      if exists i :: 0 <= i < |init| && init[i].seriesId == Some(key) {
        var i :| 0 <= i < |init| && init[i].seriesId == Some(key);
        assert ps[i] == init[i];
      }
    }
  }

  /** No key is listed twice. */
  lemma {:induction false} SeriesKeysDistinct(ps: seq<Product>)
    ensures forall i, j :: 0 <= i < j < |SeriesKeys(ps)| ==> SeriesKeys(ps)[i] != SeriesKeys(ps)[j]
  {
    if ps != [] {
      SeriesKeysDistinct(ps[..|ps| - 1]);
    }
  }

  /** The keys of a prefix are a prefix of the keys: groups come in first-appearance order. */
  lemma {:induction false} SeriesKeysOfPrefix(ps: seq<Product>, n: nat)
    requires n <= |ps|
    ensures SeriesKeys(ps[..n]) <= SeriesKeys(ps)
  {
    if n < |ps| {
      var init := ps[..|ps| - 1];
      assert init[..n] == ps[..n];
      SeriesKeysOfPrefix(init, n);
    } else {
      assert ps[..n] == ps;
    }
  }

  function GroupOf(ps: seq<Product>, key: string): SeriesGroup {
    SeriesGroup(key, Map(Filter(ps, InSeries(key)), Member))
  }

  /** The value of `getAllSeries`: one group per series id, holding that series' products in table order. */
  function AllSeries(ps: seq<Product>): (groups: seq<SeriesGroup>)
    ensures |groups| == |SeriesKeys(ps)|
    ensures forall j :: 0 <= j < |groups| ==> groups[j].seriesId == SeriesKeys(ps)[j]
  {
    Map(SeriesKeys(ps), (key: string) => GroupOf(ps, key))
  }

  /**
   * Each product with a truthy series id sits in exactly one group, the one keyed by that id,
   * and a product without one sits in none.
   */
  lemma SeriesPartition(ps: seq<Product>, p: Product)
    requires p in ps
    ensures var groups := AllSeries(ps);
      (Truthy(p.seriesId) ==>
        exists j :: 0 <= j < |groups| && groups[j].seriesId == p.seriesId.value
          && forall k :: 0 <= k < |groups| && k != j ==> p !in Filter(ps, InSeries(groups[k].seriesId)))
      && (!Truthy(p.seriesId) ==>
        forall k :: 0 <= k < |groups| ==> p !in Filter(ps, InSeries(groups[k].seriesId)))
  {
    var groups, keys := AllSeries(ps), SeriesKeys(ps);
    forall k | 0 <= k < |groups| && p in Filter(ps, InSeries(keys[k]))
      ensures p.seriesId == Some(keys[k]) && keys[k] != ""
    {
      SeriesKeysExactly(ps, keys[k]);
    }
    if Truthy(p.seriesId) {
      var i :| 0 <= i < |ps| && ps[i] == p;
      SeriesKeysExactly(ps, p.seriesId.value);
      var j :| 0 <= j < |keys| && keys[j] == p.seriesId.value;
      SeriesKeysDistinct(ps);
    }
  }

  /** A product with a series id is listed in its group. */
  lemma SeriesMemberListed(ps: seq<Product>, i: nat)
    requires i < |ps| && Truthy(ps[i].seriesId)
    ensures exists j :: (0 <= j < |AllSeries(ps)| && AllSeries(ps)[j].seriesId == ps[i].seriesId.value
      && Member(ps[i]) in AllSeries(ps)[j].products)
  {
    var keys := SeriesKeys(ps);
    SeriesKeysExactly(ps, ps[i].seriesId.value);
    var j :| 0 <= j < |keys| && keys[j] == ps[i].seriesId.value;
    var kept := Filter(ps, InSeries(keys[j]));
    FilterComplete(ps, InSeries(keys[j]));
    var k :| 0 <= k < |kept| && kept[k] == ps[i];
    assert AllSeries(ps)[j].products[k] == Member(ps[i]);
  }

  /** What the pass over `prefix` has built: the keys in insertion order, and each key's products. */
  ghost predicate SeriesState(prefix: seq<Product>, keys: seq<string>, seriesMap: map<string, seq<Product>>) {
    keys == SeriesKeys(prefix)
    && (forall key :: key in seriesMap <==> key in keys)
    && "" !in seriesMap
    && forall key :: key in seriesMap ==> seriesMap[key] == Filter(prefix, InSeries(key))
  }

  /** One step of the pass: a product with a truthy series id joins its key's list, a new key going last. */
  lemma SeriesStep(prefix: seq<Product>, p: Product, keys: seq<string>, seriesMap: map<string, seq<Product>>)
    requires SeriesState(prefix, keys, seriesMap)
    ensures !Truthy(p.seriesId) ==> SeriesState(prefix + [p], keys, seriesMap)
    ensures Truthy(p.seriesId) ==>
      var key := p.seriesId.value;
      SeriesState(prefix + [p], if key in keys then keys else keys + [key],
        seriesMap[key := (if key in seriesMap then seriesMap[key] else []) + [p]])
  {
    assert (prefix + [p])[..|prefix + [p]| - 1] == prefix;
    forall key | key in seriesMap {
      FilterSnoc(prefix, p, key);
    }
    if Truthy(p.seriesId) {
      var key := p.seriesId.value;
      FilterSnoc(prefix, p, key);
      if key !in seriesMap {
        SeriesKeysExactly(prefix, key);
        FilterKeepsNone(prefix, key);
      }
    }
  }

  /** `getAllSeries()`: one pass filling an insertion-ordered map, then one group per map entry. */
  method GetAllSeries(products: seq<Product>) returns (groups: seq<SeriesGroup>)
    ensures groups == AllSeries(products)
  {
    var keys: seq<string> := [];
    var seriesMap: map<string, seq<Product>> := map[];
    var i := 0;
    while i < |products|
      invariant 0 <= i <= |products|
      invariant SeriesState(products[..i], keys, seriesMap)
    {
      var product := products[i];
      SeriesStep(products[..i], product, keys, seriesMap);
      assert products[..i + 1] == products[..i] + [product];
      if Truthy(product.seriesId) {
        var key := product.seriesId.value;
        var existing := if key in seriesMap then seriesMap[key] else [];
        seriesMap := seriesMap[key := existing + [product]];
        if key !in keys {
          keys := keys + [key];
        }
      }
      i := i + 1;
    }
    assert products[..i] == products;
    groups := Map(keys, (key: string) => SeriesGroup(key, Map(if key in seriesMap then seriesMap[key] else [], Member)));
    MapCongruent(keys, (key: string) => SeriesGroup(key, Map(if key in seriesMap then seriesMap[key] else [], Member)),
      (key: string) => GroupOf(products, key));
  }

  /** Selecting a series from a table grown by one product. */
  lemma FilterSnoc(ps: seq<Product>, p: Product, key: string)
    ensures Filter(ps + [p], InSeries(key)) == Filter(ps, InSeries(key)) + (if p.seriesId == Some(key) then [p] else [])
  {
    FilterConcat(ps, [p], InSeries(key));
    assert [p][1..] == [];
  }

  /** A series id no product carries selects nothing. */
  lemma {:induction false} FilterKeepsNone(ps: seq<Product>, key: string)
    requires forall i :: 0 <= i < |ps| ==> ps[i].seriesId != Some(key)
    ensures Filter(ps, InSeries(key)) == []
  {
    if ps != [] {
      FilterKeepsNone(ps[1..], key);
    }
  }

  /** The URL one entry of `getImageUrls` yields: an `http…` reference as it is, otherwise the storage URL or `""`. */
  function ImageUrlOf(storageId: string, getUrl: string -> Option<string>): string {
    if StartsWith(storageId, "http") then storageId else getUrl(storageId).GetOr("")
  }

  /** `getImageUrls(storageIds)`, with the storage lookup `getUrl` as a parameter. */
  method GetImageUrls(storageIds: seq<string>, getUrl: string -> Option<string>) returns (urls: seq<string>)
    ensures |urls| == |storageIds|
    ensures forall i :: 0 <= i < |storageIds| && StartsWith(storageIds[i], "http") ==> urls[i] == storageIds[i]
    ensures forall i :: 0 <= i < |storageIds| && !StartsWith(storageIds[i], "http") ==>
      (urls[i] != "" ==> getUrl(storageIds[i]) == Some(urls[i]))
      && (getUrl(storageIds[i]).Some? ==> urls[i] == getUrl(storageIds[i]).value)
  {
    urls := [];
    for i := 0 to |storageIds|
      invariant |urls| == i
      invariant forall k :: 0 <= k < i ==> urls[k] == ImageUrlOf(storageIds[k], getUrl)
    {
      var storageId := storageIds[i];
      if StartsWith(storageId, "http") {
        urls := urls + [storageId];
      } else {
        var url := getUrl(storageId);
        urls := urls + [url.GetOr("")];
      }
    }
  }

  /** The arguments of `createProduct`, which are also the editable fields of a product. */
  datatype ProductFields = ProductFields(
    name: string,
    price: int,
    category: Category,
    subcategory: Option<string>,
    images: seq<string>,
    description: string,
    isSold: bool,
    seriesId: Option<string>)

  /** The optional arguments of `updateProduct` besides `id`; `None` leaves a field as it is. */
  datatype ProductPatch = ProductPatch(
    name: Option<string>,
    price: Option<int>,
    category: Option<Category>,
    subcategory: Option<string>,
    images: Option<seq<string>>,
    description: Option<string>,
    isSold: Option<bool>,
    seriesId: Option<string>)

  /** A product after `ctx.db.patch` with the supplied fields. */
  function Patched(p: Product, u: ProductPatch): (q: Product)
    ensures q.id == p.id && q.creationTime == p.creationTime && q.createdAt == p.createdAt
    ensures u.name.Some? ==> q.name == u.name.value
    ensures u.name.None? ==> q.name == p.name
    ensures u.price.Some? ==> q.price == u.price.value
    ensures u.price.None? ==> q.price == p.price
    ensures u.isSold.Some? ==> q.isSold == u.isSold.value
    ensures u.isSold.None? ==> q.isSold == p.isSold
    ensures u.category.Some? ==> q.category == u.category.value
    ensures u.category.None? ==> q.category == p.category
    ensures u.subcategory.Some? ==> q.subcategory == u.subcategory
    ensures u.subcategory.None? ==> q.subcategory == p.subcategory
    ensures u.images.Some? ==> q.images == u.images.value
    ensures u.images.None? ==> q.images == p.images
    ensures u.description.Some? ==> q.description == u.description.value
    ensures u.description.None? ==> q.description == p.description
    ensures u.seriesId.Some? ==> q.seriesId == u.seriesId
    ensures u.seriesId.None? ==> q.seriesId == p.seriesId
  {
    p.(name := u.name.GetOr(p.name),
       price := u.price.GetOr(p.price),
       category := u.category.GetOr(p.category),
       subcategory := if u.subcategory.Some? then u.subcategory else p.subcategory,
       images := u.images.GetOr(p.images),
       description := u.description.GetOr(p.description),
       isSold := u.isSold.GetOr(p.isSold),
       seriesId := if u.seriesId.Some? then u.seriesId else p.seriesId)
  }

  const NoChanges: ProductPatch := ProductPatch(None, None, None, None, None, None, None, None)

  /** A patch with no fields changes nothing, and applying a patch twice is applying it once. */
  lemma PatchLaws(p: Product, u: ProductPatch)
    ensures Patched(p, NoChanges) == p
    ensures Patched(Patched(p, u), u) == Patched(p, u)
  {
  }

  predicate HasProduct(products: seq<Product>, id: string) {
    exists i :: 0 <= i < |products| && products[i].id == id
  }

  /** The `products` table. */
  class ProductTable {
    var products: seq<Product>

    /** Document ids are unique. */
    ghost predicate Valid()
      reads this
    {
      forall i, j :: 0 <= i < j < |products| ==> products[i].id != products[j].id
    }

    constructor ()
      ensures products == [] && Valid()
    {
      products := [];
    }

    /** `listProducts` over the current table. */
    function List(category: Option<Category>, isSold: Option<bool>): seq<Product>
      reads this
    {
      ListProducts(products, category, isSold)
    }

    /** `createProduct(args)`: inserts the arguments plus `createdAt`; the database supplies the fresh id and creation time. */
    method CreateProduct(fields: ProductFields, now: int, freshId: string, creationTime: int) returns (id: string)
      requires Valid() && !HasProduct(products, freshId)
      modifies this
      ensures Valid() && id == freshId
      ensures products == old(products) + [Product(freshId, creationTime, fields.name, fields.price, fields.category,
        fields.subcategory, fields.images, fields.description, fields.isSold, fields.seriesId, now)]
    {
      products := products + [Product(freshId, creationTime, fields.name, fields.price, fields.category,
        fields.subcategory, fields.images, fields.description, fields.isSold, fields.seriesId, now)];
      id := freshId;
    }

    /** `updateProduct({id, ...updates})`: patches the document with that id; `found` is false when there is none, where the database refuses. */
    method UpdateProduct(id: string, updates: ProductPatch) returns (found: bool)
      requires Valid()
      modifies this
      ensures Valid()
      ensures found <==> HasProduct(old(products), id)
      ensures |products| == |old(products)|
      ensures forall i :: 0 <= i < |products| ==>
        products[i] == if old(products)[i].id == id then Patched(old(products)[i], updates) else old(products)[i]
    {
      var i := 0;
      while i < |products| && products[i].id != id
        invariant 0 <= i <= |products|
        invariant forall k :: 0 <= k < i ==> products[k].id != id
      {
        i := i + 1;
      }
      if i == |products| {
        return false;
      }
      products := products[i := Patched(products[i], updates)];
      return true;
    }

    /** `deleteProduct({id})`: drops the document with that id and keeps the rest in order. */
    method DeleteProduct(id: string)
      requires Valid()
      modifies this
      ensures Valid()
      ensures products == Filter(old(products), (p: Product) => p.id != id)
      ensures !HasProduct(products, id)
      ensures forall p :: p in old(products) && p.id != id ==> p in products
    {
      var keep := (p: Product) => p.id != id;
      FilterDistinct(products, keep, (p: Product) => p.id);
      FilterComplete(products, keep);
      FilterSubset(products, keep);
      products := Filter(products, keep);
    }
  }
}
