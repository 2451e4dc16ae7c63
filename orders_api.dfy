/**
 * The `orders` table and its server functions: placing an order, the listing by status, the
 * status change, deletion and the per-status counts. The table is the sequence of documents in
 * creation order.
 */
module OrdersApi {
  import opened Wrappers
  import opened Types
  import opened Seqs

  /** The arguments of `createOrder`. */
  datatype NewOrder = NewOrder(
    customerName: string,
    phone: string,
    email: Option<string>,
    address: Option<string>,
    deliveryMethod: string,
    items: seq<OrderItem>,
    total: int)

  function WithStatus(status: OrderStatus): Order -> bool {
    (o: Order) => o.status == Some(status)
  }

  /** `listOrders({status})`: newest first, restricted to one status when one is given. */
  function ListOrders(table: seq<Order>, status: Option<OrderStatus>): (r: seq<Order>)
    ensures |r| <= |table|
    ensures status.Some? ==> forall i :: 0 <= i < |r| ==> r[i].status == status
    ensures status.None? ==> r == Reversed(table)
  {
    if status.Some? then Filter(Reversed(table), WithStatus(status.value)) else Reversed(table)
  }

  /** A listing by status holds exactly the orders with that status; an order without a status appears only in the full listing. */
  lemma ListOrdersMembers(table: seq<Order>, status: Option<OrderStatus>, o: Order)
    ensures o in ListOrders(table, status) <==> o in table && (status.None? || o.status == status)
  {
    ReversedMembers(table, o);
    if status.Some? {
      FilterSubset(Reversed(table), WithStatus(status.value));
      FilterComplete(Reversed(table), WithStatus(status.value));
    }
  }

  /** The value of `getOrderCount`. */
  datatype OrderCount = OrderCount(pending: nat, confirmed: nat, shipped: nat, delivered: nat, cancelled: nat, total: nat)

  /** The number of orders with the given status. */
  function Count(orders: seq<Order>, status: OrderStatus): nat {
    |Filter(orders, WithStatus(status))|
  }

  function Unset(orders: seq<Order>): nat {
    |Filter(orders, (o: Order) => o.status.None?)|
  }

  function StatusSum(orders: seq<Order>): nat {
    Count(orders, Pending) + Count(orders, Confirmed) + Count(orders, Shipped) + Count(orders, Delivered) + Count(orders, Cancelled)
  }

  /** Every order is counted once: under its status, or among those without one. */
  lemma {:induction false} CountsAddUp(orders: seq<Order>)
    ensures StatusSum(orders) + Unset(orders) == |orders|
  {
    if orders != [] {
      CountsAddUp(orders[1..]);
      var o := orders[0];
      CountStep(orders, Pending);
      CountStep(orders, Confirmed);
      CountStep(orders, Shipped);
      CountStep(orders, Delivered);
      CountStep(orders, Cancelled);
      var unset := (o: Order) => o.status.None?;
      assert Filter(orders, unset) == (if unset(o) then [o] else []) + Filter(orders[1..], unset);
      assert Unset(orders) == (if o.status.None? then 1 else 0) + Unset(orders[1..]);
      assert o.status.None? || o.status.value.Pending? || o.status.value.Confirmed? || o.status.value.Shipped?
        || o.status.value.Delivered? || o.status.value.Cancelled?;
    }
  }

  lemma CountStep(orders: seq<Order>, status: OrderStatus)
    requires orders != []
    ensures Count(orders, status) == (if orders[0].status == Some(status) then 1 else 0) + Count(orders[1..], status)
  {
    var keep := WithStatus(status);
    assert keep(orders[0]) == (orders[0].status == Some(status));
    assert Filter(orders, keep) == (if keep(orders[0]) then [orders[0]] else []) + Filter(orders[1..], keep);
  }

  /** No order lacks a status exactly when none is counted as unset. */
  lemma {:induction false} UnsetNone(orders: seq<Order>)
    ensures Unset(orders) == 0 <==> forall i :: 0 <= i < |orders| ==> orders[i].status.Some?
  {
    if orders != [] {
      UnsetNone(orders[1..]);
      var unset := (o: Order) => o.status.None?;
      assert Filter(orders, unset) == (if unset(orders[0]) then [orders[0]] else []) + Filter(orders[1..], unset);
      assert forall i :: 1 <= i < |orders| ==> orders[i] == orders[1..][i - 1];
    }
  }

  /** `getOrderCount()` over the table. */
  function GetOrderCount(orders: seq<Order>): (c: OrderCount)
    ensures c.total == |orders|
    ensures c.pending + c.confirmed + c.shipped + c.delivered + c.cancelled <= c.total
    ensures c.pending + c.confirmed + c.shipped + c.delivered + c.cancelled == c.total
      <==> forall i :: 0 <= i < |orders| ==> orders[i].status.Some?
  {
    CountsAddUp(orders);
    UnsetNone(orders);
    OrderCount(Count(orders, Pending), Count(orders, Confirmed), Count(orders, Shipped),
      Count(orders, Delivered), Count(orders, Cancelled), |orders|)
  }

  /** Each per-status count agrees with the listing for that status. */
  lemma CountMatchesListing(table: seq<Order>, status: OrderStatus)
    ensures Count(table, status) == |ListOrders(table, Some(status))|
  {
    FilterReversed(table, WithStatus(status));
  }

  /** Reversing does not change how many elements a filter keeps. */
  lemma {:induction false} FilterReversed(s: seq<Order>, keep: Order -> bool)
    ensures |Filter(Reversed(s), keep)| == |Filter(s, keep)|
  {
    if s != [] {
      FilterReversed(s[1..], keep);
      assert Reversed(s) == Reversed(s[1..]) + [s[0]];
      FilterConcat(Reversed(s[1..]), [s[0]], keep);
      assert [s[0]][1..] == [];
    }
  }

  predicate HasOrder(orders: seq<Order>, id: string) {
    exists i :: 0 <= i < |orders| && orders[i].id == id
  }

  /** The `orders` table. */
  class OrdersTable {
    var orders: seq<Order>

    /** Document ids are unique. */
    ghost predicate Valid()
      reads this
    {
      forall i, j :: 0 <= i < j < |orders| ==> orders[i].id != orders[j].id
    }

    constructor ()
      ensures orders == [] && Valid()
    {
      orders := [];
    }

    /** `createOrder(args)`: stores the arguments unchanged with status "pending" and `createdAt`. */
    method CreateOrder(args: NewOrder, now: int, freshId: string, creationTime: int) returns (id: string)
      requires Valid() && !HasOrder(orders, freshId)
      modifies this
      ensures Valid() && id == freshId
      ensures orders == old(orders) + [Order(freshId, creationTime, args.customerName, args.phone, args.email,
        args.address, args.deliveryMethod, args.items, args.total, Some(Pending), now)]
    {
      orders := orders + [Order(freshId, creationTime, args.customerName, args.phone, args.email,
        args.address, args.deliveryMethod, args.items, args.total, Some(Pending), now)];
      id := freshId;
    }

    /** `updateOrderStatus({id, status})`: only that order's status changes; `found` is false when there is no such order, where the database refuses. */
    method UpdateOrderStatus(id: string, status: OrderStatus) returns (found: bool)
      requires Valid()
      modifies this
      ensures Valid()
      ensures found <==> HasOrder(old(orders), id)
      ensures |orders| == |old(orders)|
      ensures forall i :: 0 <= i < |orders| ==>
        orders[i] == if old(orders)[i].id == id then old(orders)[i].(status := Some(status)) else old(orders)[i]
    {
      var i := 0;
      while i < |orders| && orders[i].id != id
        invariant 0 <= i <= |orders|
        invariant forall k :: 0 <= k < i ==> orders[k].id != id
      {
        i := i + 1;
      }
      if i == |orders| {
        return false;
      }
      orders := orders[i := orders[i].(status := Some(status))];
      return true;
    }

    /** `deleteOrder({id})`: removes exactly that order and keeps the others in order. */
    method DeleteOrder(id: string)
      requires Valid()
      modifies this
      ensures Valid()
      ensures orders == Filter(old(orders), (o: Order) => o.id != id)
      ensures !HasOrder(orders, id)
      ensures forall o :: o in old(orders) && o.id != id ==> o in orders
      ensures HasOrder(old(orders), id) ==> |orders| == |old(orders)| - 1
    {
      var keep := (o: Order) => o.id != id;
      FilterDistinct(orders, keep, (o: Order) => o.id);
      FilterComplete(orders, keep);
      FilterSubset(orders, keep);
      if HasOrder(orders, id) {
        var k :| 0 <= k < |orders| && orders[k].id == id;
        FilterDropsOne(orders, keep, k);
      }
      orders := Filter(orders, keep);
    }

    /** `getOrderCount()` */
    function Counts(): OrderCount
      reads this
    {
      GetOrderCount(orders)
    }
  }
}
