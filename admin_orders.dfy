/**
 * The admin orders screen: the status filter, the status badge, the delivery and amount shown
 * for each order, and the single expanded order whose status can be changed.
 */
module AdminOrders {
  import opened Wrappers
  import opened Types
  import opened Seqs
  import opened Numbers
  import CartSidebar
  import OrdersApi

  /** The filter buttons: all orders, or one status. */
  datatype StatusFilter = All | Only(status: OrderStatus)

  predicate Matches(filter: StatusFilter, o: Order) {
    filter.All? || o.status == Some(filter.status)
  }

  /** `filteredOrders` */
  function FilteredOrders(orders: seq<Order>, filter: StatusFilter): (r: seq<Order>)
    ensures filter.All? ==> r == orders
    ensures filter.Only? ==> forall i :: 0 <= i < |r| ==> r[i].status == Some(filter.status)
  {
    var keep := (o: Order) => Matches(filter, o);
    if filter.All? then
      FilterKeepsAll(orders, keep);
      Filter(orders, keep)
    else
      Filter(orders, keep)
  }

  /** A status filter shows exactly the orders with that status: an order without a status only ever shows under "all". */
  lemma FilteredMembers(orders: seq<Order>, filter: StatusFilter, o: Order)
    ensures o in FilteredOrders(orders, filter) <==> o in orders && (filter.All? || o.status == Some(filter.status))
    ensures o.status.None? && filter.Only? ==> o !in FilteredOrders(orders, filter)
  {
    FilterSubset(orders, (q: Order) => Matches(filter, q));
    FilterComplete(orders, (q: Order) => Matches(filter, q));
  }

  /** `statusLabels` */
  function StatusLabel(status: OrderStatus): string {
    match status
    case Pending => "Новый"
    case Confirmed => "Подтверждён"
    case Shipped => "Отправлен"
    case Delivered => "Доставлен"
    case Cancelled => "Отменён"
  }

  /** `statusColors` */
  function StatusColor(status: OrderStatus): string {
    match status
    case Pending => "bg-yellow-100 text-yellow-700"
    case Confirmed => "bg-blue-100 text-blue-700"
    case Shipped => "bg-purple-100 text-purple-700"
    case Delivered => "bg-green-100 text-green-700"
    case Cancelled => "bg-neutral-100 text-neutral-500"
  }

  /** Every status has its own label. */
  lemma StatusLabelsDistinct(a: OrderStatus, b: OrderStatus)
    ensures StatusLabel(a) == StatusLabel(b) <==> a == b
  {
    if a != b {
      assert |StatusLabel(a)| != |StatusLabel(b)| || StatusLabel(a)[0] != StatusLabel(b)[0];
    }
  }

  /** The badge of an order: its label and colour. */
  datatype Badge = Badge(text: string, color: string)

  /** A missing status is shown as a new order. */
  function OrderBadge(status: Option<OrderStatus>): (b: Badge)
    ensures status.None? ==> b == Badge("Новый", StatusColor(Pending))
    ensures b == Badge(StatusLabel(status.GetOr(Pending)), StatusColor(status.GetOr(Pending)))
  {
    match status
    case Some(s) => Badge(StatusLabel(s), StatusColor(s))
    case None => Badge("Новый", StatusColor(Pending))
  }

  /** The delivery shown for an order, read with the same map as the checkout. */
  function DeliveryShown(o: Order): (shown: string)
    ensures o.deliveryMethod == "post" <==> shown == "Почта России"
    ensures o.deliveryMethod == "cdek" <==> shown == "СДЭК"
    ensures o.deliveryMethod != "post" && o.deliveryMethod != "cdek" <==> shown == "OZON"
  {
    CartSidebar.DeliveryLabel(o.deliveryMethod)
  }

  /** The amount shown for one item line: price times quantity, grouped as in ru-RU, with the rouble sign. */
  function ItemAmount(item: OrderItem): (text: string)
    ensures |text| >= 2 && text[|text| - 2..] == " ₽"
    ensures item.price * item.quantity >= 0 ==> DigitsOnly(text[..|text| - 2]) == Decimal(item.price * item.quantity)
  {
    var text := FormatRu(item.price * item.quantity) + " ₽";
    assert text[..|text| - 2] == FormatRu(item.price * item.quantity);
    if item.price * item.quantity >= 0 then
      FormatRuDigits(item.price * item.quantity);
      text
    else
      text
  }

  /** `order._id.slice(-8)`: the last eight characters, or the whole id when it is shorter. */
  function ShortId(id: string): (r: string)
    ensures |r| == if |id| < 8 then |id| else 8
    ensures id == id[..|id| - |r|] + r
  {
    if |id| < 8 then id else id[|id| - 8..]
  }

  /** What the list area shows. */
  datatype ListView = Skeleton | EmptyState | OrderList(orders: seq<Order>)

  function View(orders: Option<seq<Order>>, filter: StatusFilter): (v: ListView)
    ensures v.Skeleton? <==> orders.None?
    ensures v.EmptyState? <==> orders.Some? && FilteredOrders(orders.value, filter) == []
    ensures v.OrderList? ==> v.orders == FilteredOrders(orders.value, filter) && v.orders != []
  {
    match orders
    case None => Skeleton
    case Some(os) =>
      var shown := FilteredOrders(os, filter);
      if shown == [] then EmptyState else OrderList(shown)
  }

  /** The screen state: the chosen filter and the expanded order, if any. */
  class OrdersScreen {
    var filter: StatusFilter
    var selectedOrder: Option<string>

    constructor ()
      ensures filter == All && selectedOrder == None
    {
      filter := All;
      selectedOrder := None;
    }

    /** Whether an order's status panel is open. */
    predicate Expanded(o: Order)
      reads this
    {
      selectedOrder == Some(o.id)
    }

    method SetFilter(f: StatusFilter)
      modifies this
      ensures filter == f && selectedOrder == old(selectedOrder)
    {
      filter := f;
    }

    /** The expand/collapse button: collapses the open order, otherwise opens the clicked one. */
    method Toggle(orderId: string)
      modifies this
      ensures old(selectedOrder) == Some(orderId) ==> selectedOrder == None
      ensures old(selectedOrder) != Some(orderId) ==> selectedOrder == Some(orderId)
      ensures filter == old(filter)
    {
      if selectedOrder == Some(orderId) {
        selectedOrder := None;
      } else {
        selectedOrder := Some(orderId);
      }
    }

    /** A status button of the open order: sets that order's status in the table. */
    method ChangeStatus(table: OrdersApi.OrdersTable, orderId: string, status: OrderStatus)
      requires table.Valid()
      modifies table
      ensures table.Valid() && |table.orders| == |old(table.orders)|
      ensures forall i :: 0 <= i < |table.orders| ==>
        table.orders[i] == if old(table.orders)[i].id == orderId then old(table.orders)[i].(status := Some(status)) else old(table.orders)[i]
    {
      var _ := table.UpdateOrderStatus(orderId, status);
    }
  }

  /** Among orders with distinct ids, at most one is expanded. */
  lemma AtMostOneExpanded(screen: OrdersScreen, orders: seq<Order>, i: nat, j: nat)
    requires i < |orders| && j < |orders|
    requires forall a, b :: 0 <= a < b < |orders| ==> orders[a].id != orders[b].id
    requires screen.Expanded(orders[i]) && screen.Expanded(orders[j])
    ensures i == j
  {
  }
}
