/**
 * The shopping cart: a list of lines keyed by product id, an open/closed flag, and the
 * total. The state updaters are pure functions on the line list; `Cart` holds the state and
 * applies them.
 */
module CartEngine {
  import opened Wrappers
  import opened Types
  import opened Seqs

  /** Some line of `items` carries the id. */
  predicate HasId(items: seq<CartItem>, id: string) {
    exists i :: 0 <= i < |items| && items[i].id == id
  }

  /** At most one line per product id. */
  predicate UniqueIds(items: seq<CartItem>) {
    forall i, j :: 0 <= i < j < |items| ==> items[i].id != items[j].id
  }

  /** Every line holds at least one piece. */
  predicate PositiveQuantities(items: seq<CartItem>) {
    forall i :: 0 <= i < |items| ==> items[i].quantity >= 1
  }

  /** The cart invariant kept by every operation. */
  predicate WellFormed(items: seq<CartItem>) {
    UniqueIds(items) && PositiveQuantities(items)
  }

  /** `items.find(item => item._id === id)`, as the index of the first match. */
  function Find(items: seq<CartItem>, id: string): (r: Option<nat>)
    ensures r.Some? ==> r.value < |items| && items[r.value].id == id
    ensures r.Some? ==> forall j :: 0 <= j < r.value ==> items[j].id != id
    ensures r.None? <==> !HasId(items, id)
  {
    if items == [] then None
    else if items[0].id == id then Some(0)
    else match Find(items[1..], id)
      case None => None
      case Some(k) => Some(k + 1)
  }

  /** The line a product gets when it first enters the cart. */
  function NewLine(p: Product): CartItem {
    CartItem(p.id, p.name, p.price, 1, p.images)
  }

  function Bump(id: string): CartItem -> CartItem {
    (item: CartItem) => if item.id == id then item.(quantity := item.quantity + 1) else item
  }

  function SetQuantity(id: string, q: int): CartItem -> CartItem {
    (item: CartItem) => if item.id == id then item.(quantity := q) else item
  }

  /** The update `addItem(p)` applies to the lines. */
  function Added(items: seq<CartItem>, p: Product): (r: seq<CartItem>)
    ensures HasId(items, p.id) ==> |r| == |items|
    ensures HasId(items, p.id) ==> forall i :: 0 <= i < |items| ==>
      (items[i].id == p.id ==> r[i] == items[i].(quantity := items[i].quantity + 1))
      && (items[i].id != p.id ==> r[i] == items[i])
    ensures !HasId(items, p.id) ==> r == items + [NewLine(p)]
    ensures HasId(r, p.id)
  {
    if Find(items, p.id).Some? then Map(items, Bump(p.id))
    else
      var r := items + [NewLine(p)];
      assert r[|items|].id == p.id;
      r
  }

  /** The update `removeItem(id)` applies: keep the lines with another id. */
  function Removed(items: seq<CartItem>, id: string): (r: seq<CartItem>)
    ensures !HasId(r, id)
    ensures forall i :: 0 <= i < |items| && items[i].id != id ==> items[i] in r
  {
    FilterComplete(items, (item: CartItem) => item.id != id);
    Filter(items, (item: CartItem) => item.id != id)
  }

  /** The update `updateQuantity(id, q)` applies. */
  function QuantityUpdated(items: seq<CartItem>, id: string, q: int): (r: seq<CartItem>)
    ensures q <= 0 ==> !HasId(r, id)
    ensures q > 0 ==> |r| == |items|
    ensures q > 0 ==> forall i :: 0 <= i < |items| ==>
      (items[i].id == id ==> r[i] == items[i].(quantity := q))
      && (items[i].id != id ==> r[i] == items[i])
  {
    if q <= 0 then Removed(items, id) else Map(items, SetQuantity(id, q))
  }

  function Amount(item: CartItem): int {
    item.price * item.quantity
  }

  /** `items.reduce((sum, item) => sum + item.price * item.quantity, 0)` */
  function Sum(items: seq<CartItem>): (t: int)
    ensures items == [] ==> t == 0

  {
    if items == [] then 0 else Amount(items[0]) + Sum(items[1..])
  }

  lemma {:induction false} SumConcat(a: seq<CartItem>, b: seq<CartItem>)
    ensures Sum(a + b) == Sum(a) + Sum(b)
  {
    if a == [] {
      assert a + b == b;
    } else {
      assert (a + b)[1..] == a[1..] + b;
      SumConcat(a[1..], b);
    }
  }

  /** A map that changes no line leaves the lines as they are. */
  lemma MapUnchanged(items: seq<CartItem>, f: CartItem -> CartItem)
    requires forall i :: 0 <= i < |items| ==> f(items[i]) == items[i]
    ensures Map(items, f) == items
  {
  }

  /** Adding keeps at most one line per id and every quantity positive. */
  lemma AddedWellFormed(items: seq<CartItem>, p: Product)
    requires WellFormed(items)
    ensures WellFormed(Added(items, p))
  {
    var r := Added(items, p);
    if !HasId(items, p.id) {
      forall i, j | 0 <= i < j < |r| ensures r[i].id != r[j].id {
        if j == |items| {
          assert r[j].id == p.id && r[i] == items[i];
        }
      }
    }
  }

  /** Filtering lines never creates a duplicate id. */
  lemma {:induction false} FilterUnique(items: seq<CartItem>, keep: CartItem -> bool)
    requires UniqueIds(items)
    ensures UniqueIds(Filter(items, keep))
  {
    if items != [] {
      FilterUnique(items[1..], keep);
      var tail := Filter(items[1..], keep);
      FilterSubset(items[1..], keep);
      forall j | 0 <= j < |tail| ensures tail[j].id != items[0].id {
        var k :| 0 <= k < |items[1..]| && items[1..][k] == tail[j];
      }
    }
  }

  lemma RemovedWellFormed(items: seq<CartItem>, id: string)
    requires WellFormed(items)
    ensures WellFormed(Removed(items, id))
  {
    FilterUnique(items, (item: CartItem) => item.id != id);
    FilterSubset(items, (item: CartItem) => item.id != id);
    var r := Removed(items, id);
    forall i | 0 <= i < |r| ensures r[i].quantity >= 1 {
      var k :| 0 <= k < |items| && items[k] == r[i];
    }
  }

  /** Only positive quantities are ever written, so the invariant survives every update. */
  lemma QuantityUpdatedWellFormed(items: seq<CartItem>, id: string, q: int)
    requires WellFormed(items)
    ensures WellFormed(QuantityUpdated(items, id, q))
  {
    if q <= 0 {
      RemovedWellFormed(items, id);
    }
  }

  /** Removing an id that is not in the cart changes nothing. */
  lemma RemoveAbsent(items: seq<CartItem>, id: string)
    requires !HasId(items, id)
    ensures Removed(items, id) == items
  {
    FilterKeepsAll(items, (item: CartItem) => item.id != id);
  }

  /** Removing twice is removing once. */
  lemma RemoveIdempotent(items: seq<CartItem>, id: string)
    ensures Removed(Removed(items, id), id) == Removed(items, id)
  {
    FilterIdempotent(items, (item: CartItem) => item.id != id);
  }

  /** In a cart with unique ids, removing a present id cuts exactly that line out. */
  lemma RemoveCutsLine(items: seq<CartItem>, id: string, k: nat)
    requires UniqueIds(items) && k < |items| && items[k].id == id
    ensures Removed(items, id) == items[..k] + items[k + 1..]
  {
    FilterDropsOne(items, (item: CartItem) => item.id != id, k);
  }

  /** Removing a product that was just added for the first time restores the cart. */
  lemma RemoveUndoesAdd(items: seq<CartItem>, p: Product)
    requires !HasId(items, p.id)
    ensures Removed(Added(items, p), p.id) == items
  {
    var keep := (item: CartItem) => item.id != p.id;
    FilterConcat(items, [NewLine(p)], keep);
    FilterKeepsAll(items, keep);
    assert Filter([NewLine(p)], keep) == [] by {
      assert [NewLine(p)][1..] == [];
    }
  }

  /** Updating the quantity of an id that is not in the cart changes nothing. */
  lemma UpdateAbsent(items: seq<CartItem>, id: string, q: int)
    requires !HasId(items, id)
    ensures QuantityUpdated(items, id, q) == items
  {
    if q <= 0 {
      RemoveAbsent(items, id);
    } else {
      MapUnchanged(items, SetQuantity(id, q));
    }
  }

  /** In a cart with unique ids, setting line `k` to `q` changes the total by the line's price times the change. */
  lemma {:induction false} SumSetQuantity(items: seq<CartItem>, k: nat, q: int)
    requires UniqueIds(items) && k < |items|
    ensures Sum(Map(items, SetQuantity(items[k].id, q)))
      == Sum(items) + items[k].price * (q - items[k].quantity)
  {
    var id := items[k].id;
    var f := SetQuantity(id, q);
    var m := Map(items, f);
    var tail := items[1..];
    assert m == [f(items[0])] + Map(tail, f);
    assert m[1..] == Map(tail, f);
    assert Sum(m) == Amount(f(items[0])) + Sum(Map(tail, f));
    assert Sum(items) == Amount(items[0]) + Sum(tail);
    if k == 0 {
      assert forall i :: 0 <= i < |tail| ==> tail[i] == items[1 + i];
      MapUnchanged(tail, f);
      var x := items[0];
      assert Amount(f(x)) == x.price * q;
      assert x.price * q == x.price * x.quantity + x.price * (q - x.quantity);
    } else {
      assert tail[k - 1] == items[k];
      assert UniqueIds(tail) by {
        assert forall i :: 0 <= i < |tail| ==> tail[i] == items[1 + i];
      }
      SumSetQuantity(tail, k - 1, q);
      assert items[0].id != id;
      assert f(items[0]) == items[0];
    }
  }

  /** Adding raises the total by the price of one piece: the stored line's price when the product is already in the cart, the product's price otherwise. */
  lemma AddedTotal(items: seq<CartItem>, p: Product)
    requires UniqueIds(items)
    ensures Sum(Added(items, p)) == Sum(items) + match Find(items, p.id)
      case Some(k) => items[k].price
      case None => p.price
  {
    match Find(items, p.id)
    case Some(k) =>
      var q := items[k].quantity + 1;
      SumSetQuantity(items, k, q);
      assert forall i :: 0 <= i < |items| ==> Bump(p.id)(items[i]) == SetQuantity(p.id, q)(items[i]) by {
        assert forall i :: 0 <= i < |items| && items[i].id == p.id ==> i == k;
      }
      MapCongruent(items, Bump(p.id), SetQuantity(p.id, q));
    case None =>
      SumConcat(items, [NewLine(p)]);
      assert [NewLine(p)][1..] == [];
  }

  lemma SumAround(items: seq<CartItem>, k: nat)
    requires k < |items|
    ensures Sum(items) == Sum(items[..k]) + Amount(items[k]) + Sum(items[k + 1..])
  {
    var pre, post := items[..k], items[k + 1..];
    assert items == pre + ([items[k]] + post);
    SumConcat(pre, [items[k]] + post);
    assert ([items[k]] + post)[1..] == post;
  }

  /** Removing a line lowers the total by exactly that line's amount. */
  lemma RemovedTotal(items: seq<CartItem>, k: nat)
    requires UniqueIds(items) && k < |items|
    ensures Sum(Removed(items, items[k].id)) == Sum(items) - Amount(items[k])
  {
    RemoveCutsLine(items, items[k].id, k);
    SumConcat(items[..k], items[k + 1..]);
    SumAround(items, k);
  }

  /** Setting a positive quantity changes the total by the line's price times the change. */
  lemma QuantityUpdatedTotal(items: seq<CartItem>, k: nat, q: int)
    requires UniqueIds(items) && k < |items| && q > 0
    ensures Sum(QuantityUpdated(items, items[k].id, q)) == Sum(items) + items[k].price * (q - items[k].quantity)
  {
    SumSetQuantity(items, k, q);
  }

  /** The cart state of the storefront: its lines and whether the cart panel is open. */
  class Cart {
    var items: seq<CartItem>
    var isOpen: bool

    ghost predicate Valid()
      reads this
    {
      WellFormed(items)
    }

    /** An empty, closed cart. */
    constructor ()
      ensures items == [] && !isOpen
      ensures Valid()
    {
      items := [];
      isOpen := false;
    }

    /** `total` */
    function Total(): int
      reads this
    {
      Sum(items)
    }

    /** `addItem(product)`: merge or append, then open the cart whichever branch ran. */
    method AddItem(p: Product)
      requires Valid()
      modifies this
      ensures items == Added(old(items), p) && isOpen
      ensures Valid()
      ensures Total() == old(Total()) + match Find(old(items), p.id)
        case Some(k) => old(items)[k].price
        case None => p.price
    {
      AddedWellFormed(items, p);
      AddedTotal(items, p);
      items := Added(items, p);
      isOpen := true;
    }

    /** `removeItem(id)` */
    method RemoveItem(id: string)
      requires Valid()
      modifies this
      ensures items == Removed(old(items), id) && isOpen == old(isOpen)
      ensures Valid()
    {
      RemovedWellFormed(items, id);
      items := Removed(items, id);
    }

    /** `updateQuantity(id, q)`: a quantity of zero or less removes the line. */
    method UpdateQuantity(id: string, q: int)
      requires Valid()
      modifies this
      ensures items == QuantityUpdated(old(items), id, q) && isOpen == old(isOpen)
      ensures q <= 0 ==> items == Removed(old(items), id)
      ensures Valid()
    {
      QuantityUpdatedWellFormed(items, id, q);
      if q <= 0 {
        RemoveItem(id);
        return;
      }
      items := QuantityUpdated(items, id, q);
    }

    /** `clearCart()`: empties the lines and leaves the panel as it was. */
    method ClearCart()
      modifies this
      ensures items == [] && isOpen == old(isOpen)
      ensures Valid() && Total() == 0
    {
      items := [];
    }

    /** `setIsOpen(open)` */
    method SetIsOpen(open: bool)
      modifies this
      ensures isOpen == open && items == old(items)
    {
      isOpen := open;
    }
  }
}
