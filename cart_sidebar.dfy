/**
 * The cart panel: which of its four views is shown, the checkout footer, the order message
 * sent through Telegram, the address gate on the send link, and the quantity buttons.
 */
module CartSidebar {
  import opened Wrappers
  import opened Types
  import opened Seqs
  import opened JsText
  import opened Numbers
  import opened Telegram
  import opened CartEngine

  /** The label of a delivery method; any method other than "post" and "cdek" reads as OZON. */
  function DeliveryLabel(deliveryMethod: string): (shown: string)
    ensures deliveryMethod == "post" <==> shown == "Почта России"
    ensures deliveryMethod == "cdek" <==> shown == "СДЭК"
    ensures deliveryMethod != "post" && deliveryMethod != "cdek" <==> shown == "OZON"
  {
    if deliveryMethod == "post" then "Почта России"
    else if deliveryMethod == "cdek" then "СДЭК"
    else "OZON"
  }

  /** `<name> (<quantity> шт.) - <amount> ₽` */
  function ItemLine(item: CartItem): string {
    item.name + " (" + IntString(item.quantity) + " шт.) - " + FormatRu(item.price * item.quantity) + " ₽"
  }

  /** A formatted amount followed by the rouble sign. */
  function RoubleText(amount: int): string {
    FormatRu(amount) + " ₽"
  }

  /** The heading of an order message, followed by a blank line. */
  const OrderHeading: string := "ЗАКАЗ\n\n"

  /** The first message entry: the heading, a blank line, then one line per cart line. */
  function OrderHeader(items: seq<CartItem>): string {
    OrderHeading + Join(Map(items, ItemLine), "\n")
  }

  /** The entries handed to `createTelegramLink`, in their insertion order. */
  function OrderFields(items: seq<CartItem>, deliveryMethod: string, address: string): seq<Field> {
    [ Field("", Some(OrderHeader(items))),
      Field("Доставка", Some(DeliveryLabel(deliveryMethod))),
      Field("Адрес", Some(address)),
      Field("Итого", Some(RoubleText(Sum(items)))) ]
  }

  /** The message an order link carries, for an address that is not blank. */
  function OrderMessage(items: seq<CartItem>, deliveryMethod: string, address: string): string {
    Clean(OrderHeader(items))
    + "\nДоставка: " + DeliveryLabel(deliveryMethod)
    + "\nАдрес: " + Clean(address)
    + "\nИтого: " + RoubleText(Sum(items))
  }

  /**
   * The order link: with a non-blank address its message is the four entries, in order; every
   * cart line sits on a line of its own, in cart order, and the message holds no angle bracket.
   */
  function OrderLink(items: seq<CartItem>, deliveryMethod: string, address: string): (link: string)
    ensures StartsWith(link, LinkPrefix)
    ensures Trim(address) != "" ==>
      UriComponent.Decode(link[|LinkPrefix|..]) == Some(OrderMessage(items, deliveryMethod, address))
    ensures Trim(address) != "" ==>
      '<' !in OrderMessage(items, deliveryMethod, address) && '>' !in OrderMessage(items, deliveryMethod, address)
    ensures items != [] ==> (OrderMessage(items, deliveryMethod, address)
      == OrderHeading + Join(Map(items, CleanItemLine), "\n")
        + "\nДоставка: " + DeliveryLabel(deliveryMethod)
        + "\nАдрес: " + Clean(address)
        + "\nИтого: " + RoubleText(Sum(items)))
  {
    OrderHeaderClean(items);
    if Trim(address) != "" then
      OrderText(items, deliveryMethod, address);
      OrderFieldKeys(items, deliveryMethod, address);
      TextNoAngles(OrderFields(items, deliveryMethod, address));
      CreateTelegramLink(OrderFields(items, deliveryMethod, address))
    else
      CreateTelegramLink(OrderFields(items, deliveryMethod, address))
  }

  lemma OrderFieldKeys(items: seq<CartItem>, deliveryMethod: string, address: string)
    ensures var fields := OrderFields(items, deliveryMethod, address);
      forall i :: 0 <= i < |fields| ==> '<' !in fields[i].key && '>' !in fields[i].key
  {
    var fields := OrderFields(items, deliveryMethod, address);
    LabelsNoAngles();
    assert fields[0].key == "" && fields[1].key == "Доставка" && fields[2].key == "Адрес" && fields[3].key == "Итого";
  }

  lemma LabelsNoAngles()
    ensures '<' !in "Доставка" && '>' !in "Доставка"
    ensures '<' !in "Адрес" && '>' !in "Адрес"
    ensures '<' !in "Итого" && '>' !in "Итого"
  {
  }

  /** A cart line as it reaches the message: the line with its angle brackets dropped. */
  function CleanItemLine(item: CartItem): string {
    Filter(ItemLine(item), NotAngle)
  }

  /** A cart line whose product name has no angle bracket reaches the message unchanged. */
  lemma ItemLineClean(item: CartItem)
    requires '<' !in item.name && '>' !in item.name
    ensures CleanItemLine(item) == ItemLine(item)
  {
    var line := ItemLine(item);
    var q := IntString(item.quantity);
    assert '<' !in q && '>' !in q by {
      var d := Decimal(if item.quantity < 0 then -item.quantity else item.quantity);
      assert forall k :: 0 <= k < |d| ==> IsDigit(d[k]);
    }
    FormatRuNoAngles(item.price * item.quantity);
    assert '<' !in line && '>' !in line;
    FilterKeepsAll(line, NotAngle);
  }

  /**
   * Cleaning the first entry of a non-empty cart keeps the heading and puts each cart line on a
   * line of its own, in cart order, with only its angle brackets dropped.
   */
  lemma OrderHeaderClean(items: seq<CartItem>)
    ensures items != [] ==> Clean(OrderHeader(items)) == OrderHeading + Join(Map(items, CleanItemLine), "\n")
  {
    if items != [] {
      HeadingFacts();
      CleanedLines(OrderHeading, items);
    }
  }

  /** When no product name holds an angle bracket, the first entry of a non-empty cart passes cleaning unchanged. */
  lemma OrderHeaderUnchanged(items: seq<CartItem>)
    requires items != []
    requires forall i :: 0 <= i < |items| ==> '<' !in items[i].name && '>' !in items[i].name
    ensures Clean(OrderHeader(items)) == OrderHeader(items)
  {
    OrderHeaderClean(items);
    CleanLinesUnchanged(items);
  }

  lemma HeadingFacts()
    ensures OrderHeading != [] && !IsJsSpace(OrderHeading[0])
    ensures '<' !in OrderHeading && '>' !in OrderHeading
  {
  }

  /** The same, for any heading that has no angle bracket and does not start with white space. */
  lemma CleanedLines(heading: string, items: seq<CartItem>)
    requires items != []
    requires heading != [] && !IsJsSpace(heading[0])
    requires '<' !in heading && '>' !in heading
    ensures Clean(heading + Join(Map(items, ItemLine), "\n")) == heading + Join(Map(items, CleanItemLine), "\n")
  {
    var body := Join(Map(items, ItemLine), "\n");
    LinesTrimmed(heading, items);
    CleanAfterHeading(heading, body);
    FilterItemLines(items);
  }

  /** Cleaning a trimmed text whose heading has no angle bracket cleans only what follows the heading. */
  lemma CleanAfterHeading(heading: string, body: string)
    requires Trim(heading + body) == heading + body
    requires '<' !in heading && '>' !in heading
    ensures Clean(heading + body) == heading + Filter(body, NotAngle)
  {
    assert forall k :: 0 <= k < |heading| ==> NotAngle(heading[k]) by {
      forall k | 0 <= k < |heading| ensures NotAngle(heading[k]) {
        assert heading[k] in heading;
      }
    }
    FilterKeepsAll(heading, NotAngle);
    FilterConcat(heading, body, NotAngle);
  }

  /** Cart lines whose product names have no angle bracket pass cleaning unchanged. */
  lemma CleanLinesUnchanged(items: seq<CartItem>)
    requires forall i :: 0 <= i < |items| ==> '<' !in items[i].name && '>' !in items[i].name
    ensures Map(items, CleanItemLine) == Map(items, ItemLine)
  {
    forall i | 0 <= i < |items| ensures CleanItemLine(items[i]) == ItemLine(items[i]) {
      ItemLineClean(items[i]);
    }
    MapCongruent(items, CleanItemLine, ItemLine);
  }

  /** Cart lines after a heading that does not start with white space are kept whole by trimming: the last one ends with the rouble sign. */
  lemma LinesTrimmed(heading: string, items: seq<CartItem>)
    requires items != []
    requires heading != [] && !IsJsSpace(heading[0])
    ensures Trim(heading + Join(Map(items, ItemLine), "\n")) == heading + Join(Map(items, ItemLine), "\n")
  {
    var lines := Map(items, ItemLine);
    var body := Join(lines, "\n");
    assert body != [] && body[|body| - 1] == '₽' by {
      ItemLineEnds(items[|items| - 1]);
      JoinEnds(lines, "\n");
    }
    SolidEdges(heading, body);
  }

  /** Every cart line ends with the rouble sign. */
  lemma ItemLineEnds(item: CartItem)
    ensures ItemLine(item) != [] && ItemLine(item)[|ItemLine(item)| - 1] == '₽'
  {
    var front := item.name + " (" + IntString(item.quantity) + " шт.) - " + FormatRu(item.price * item.quantity);
    assert ItemLine(item) == front + " ₽";
  }

  /** A joined text ends where its last part ends. */
  lemma JoinEnds(xs: seq<string>, sep: string)
    requires xs != [] && xs[|xs| - 1] != []
    ensures var j, last := Join(xs, sep), xs[|xs| - 1]; j != [] && j[|j| - 1] == last[|last| - 1]
  {
    var last := xs[|xs| - 1];
    assert xs == xs[..|xs| - 1] + [last];
    JoinSnoc(xs[..|xs| - 1], last, sep);
  }

  /** A text that starts with a heading whose first character is not white space, and ends in one that is not, is its own trim. */
  lemma SolidEdges(heading: string, body: string)
    requires heading != [] && !IsJsSpace(heading[0])
    requires body != [] && !IsJsSpace(body[|body| - 1])
    ensures Trim(heading + body) == heading + body
  {
    TrimOfTrimmed(heading + body);
  }

  /** Dropping angle brackets from the joined cart lines drops them line by line; the newlines stay. */
  lemma {:induction false} FilterItemLines(items: seq<CartItem>)
    ensures Filter(Join(Map(items, ItemLine), "\n"), NotAngle) == Join(Map(items, CleanItemLine), "\n")
  {
    var lines, cleaned := Map(items, ItemLine), Map(items, CleanItemLine);
    if |items| > 1 {
      assert lines[1..] == Map(items[1..], ItemLine);
      assert cleaned[1..] == Map(items[1..], CleanItemLine);
      FilterItemLines(items[1..]);
      var rest := Join(lines[1..], "\n");
      assert Join(lines, "\n") == (lines[0] + "\n") + rest;
      FilterConcat(lines[0] + "\n", rest, NotAngle);
      FilterConcat(lines[0], "\n", NotAngle);
      FilterKeepsAll("\n", NotAngle);
    }
  }

  /** A value that is already trimmed and free of angle brackets comes out of cleaning unchanged. */
  lemma CleanFixed(v: string)
    requires v != [] ==> !IsJsSpace(v[0]) && !IsJsSpace(v[|v| - 1])
    requires forall i :: 0 <= i < |v| ==> NotAngle(v[i])
    ensures Clean(v) == v
  {
    CleanWithoutAngles(v);
    TrimOfTrimmed(v);
  }

  /** The delivery label passes through cleaning unchanged. */
  lemma DeliveryLabelClean(deliveryMethod: string)
    ensures Clean(DeliveryLabel(deliveryMethod)) == DeliveryLabel(deliveryMethod)
  {
    CleanFixed(DeliveryLabel(deliveryMethod));
  }

  /** A rouble amount passes through cleaning unchanged. */
  lemma RoubleTextClean(amount: int)
    ensures Clean(RoubleText(amount)) == RoubleText(amount)
  {
    var f := FormatRu(amount);
    var t := RoubleText(amount);
    assert forall i :: 0 <= i < |t| ==> NotAngle(t[i]) by {
      assert forall i :: 0 <= i < |f| ==> t[i] == f[i];
      assert forall i :: |f| <= i < |t| ==> t[i] in " ₽";
    }
    CleanFixed(t);
  }

  /** With a non-blank address all four entries are kept and joined in order. */
  lemma OrderText(items: seq<CartItem>, deliveryMethod: string, address: string)
    requires Trim(address) != ""
    ensures Text(OrderFields(items, deliveryMethod, address)) == OrderMessage(items, deliveryMethod, address)
  {
    var header, methodName, total := OrderHeader(items), DeliveryLabel(deliveryMethod), RoubleText(Sum(items));
    assert header != "" by {
      assert header[0] == 'З';
    }
    assert methodName != "";
    assert address != "";
    assert total != "";
    DeliveryLabelClean(deliveryMethod);
    RoubleTextClean(Sum(items));
    MessageOfFields(header, methodName, address, total);
  }

  lemma MessageOfFields(header: string, methodName: string, address: string, total: string)
    requires header != "" && methodName != "" && address != "" && total != ""
    requires Clean(methodName) == methodName && Clean(total) == total
    ensures Text([Field("", Some(header)), Field("Доставка", Some(methodName)),
        Field("Адрес", Some(address)), Field("Итого", Some(total))])
      == Clean(header) + "\nДоставка: " + methodName + "\nАдрес: " + Clean(address) + "\nИтого: " + total
  {
    var f0, f1, f2, f3 := Field("", Some(header)), Field("Доставка", Some(methodName)),
      Field("Адрес", Some(address)), Field("Итого", Some(total));
    assert Text([f0, f1, f2, f3])
      == RenderField(f0) + "\n" + RenderField(f1) + "\n" + RenderField(f2) + "\n" + RenderField(f3) by {
      TextOfFour(f0, f1, f2, f3);
    }
    assert RenderField(f0) == Clean(header);
    assert RenderField(f1) == "Доставка: " + methodName;
    assert RenderField(f2) == "Адрес: " + Clean(address);
    assert RenderField(f3) == "Итого: " + total;
    LabelledLines(Clean(header), methodName, Clean(address), total);
  }

  lemma LabelledLines(a: string, b: string, c: string, d: string)
    ensures a + "\n" + ("Доставка: " + b) + "\n" + ("Адрес: " + c) + "\n" + ("Итого: " + d)
      == a + "\nДоставка: " + b + "\nАдрес: " + c + "\nИтого: " + d
  {
  }

  /** The send control: a link only when the address is not blank. */
  function CheckoutSend(items: seq<CartItem>, deliveryMethod: string, address: string): (c: SendControl)
    ensures c.SendLink? <==> !AllSpace(address)
    ensures c.SendLink? ==> c.href == OrderLink(items, deliveryMethod, address)
  {
    TrimEmptyIffBlank(address);
    if Trim(address) != "" then SendLink(OrderLink(items, deliveryMethod, address)) else SendDisabled
  }

  /** The four bodies of the panel. */
  datatype SidebarView = EmptyCart | Submitted | CheckoutForm | ItemList

  /** View precedence: empty cart, then submitted order, then checkout form, then the item list. */
  function View(items: seq<CartItem>, orderSubmitted: bool, isCheckingOut: bool): (v: SidebarView)
    ensures v == EmptyCart <==> items == []
    ensures v == Submitted <==> items != [] && orderSubmitted
    ensures v == CheckoutForm <==> items != [] && !orderSubmitted && isCheckingOut
    ensures v == ItemList <==> items != [] && !orderSubmitted && !isCheckingOut
  {
    if |items| == 0 then EmptyCart
    else if orderSubmitted then Submitted
    else if isCheckingOut then CheckoutForm
    else ItemList
  }

  /** `items.length > 0 && !orderSubmitted && !isCheckingOut` */
  predicate ShowFooter(items: seq<CartItem>, orderSubmitted: bool, isCheckingOut: bool) {
    |items| > 0 && !orderSubmitted && !isCheckingOut
  }

  /** The checkout footer appears exactly under the item list. */
  lemma FooterWithItemList(items: seq<CartItem>, orderSubmitted: bool, isCheckingOut: bool)
    ensures ShowFooter(items, orderSubmitted, isCheckingOut) <==> View(items, orderSubmitted, isCheckingOut) == ItemList
  {
  }

  /** The minus button on a line of one piece removes that line and keeps the others in order. */
  lemma MinusAtOneRemoves(items: seq<CartItem>, k: nat)
    requires UniqueIds(items) && k < |items| && items[k].quantity == 1
    ensures QuantityUpdated(items, items[k].id, items[k].quantity - 1) == items[..k] + items[k + 1..]
  {
    RemoveCutsLine(items, items[k].id, k);
  }

  /** The panel's own state, over the shared cart. */
  class Sidebar {
    const cart: Cart
    var isCheckingOut: bool
    var orderSubmitted: bool
    var deliveryMethod: string
    var address: string

    constructor (cart: Cart)
      ensures this.cart == cart
      ensures !isCheckingOut && !orderSubmitted && deliveryMethod == "post" && address == ""
    {
      this.cart := cart;
      isCheckingOut := false;
      orderSubmitted := false;
      deliveryMethod := "post";
      address := "";
    }

    /** `handleCheckout`: submitting the checkout form only marks the order as submitted; the `required` address input is never submitted empty. */
    method HandleCheckout()
      requires address != ""
      modifies this
      ensures orderSubmitted
      ensures isCheckingOut == old(isCheckingOut) && deliveryMethod == old(deliveryMethod) && address == old(address)
    {
      orderSubmitted := true;
    }

    /** The "Оформить заказ" button. */
    method StartCheckout()
      modifies this
      ensures isCheckingOut
      ensures orderSubmitted == old(orderSubmitted) && deliveryMethod == old(deliveryMethod) && address == old(address)
    {
      isCheckingOut := true;
    }

    method SetDeliveryMethod(m: string)
      modifies this
      ensures deliveryMethod == m
      ensures isCheckingOut == old(isCheckingOut) && orderSubmitted == old(orderSubmitted) && address == old(address)
    {
      deliveryMethod := m;
    }

    method SetAddress(a: string)
      modifies this
      ensures address == a
      ensures isCheckingOut == old(isCheckingOut) && orderSubmitted == old(orderSubmitted) && deliveryMethod == old(deliveryMethod)
    {
      address := a;
    }

    /** The view the panel shows now. */
    function CurrentView(): SidebarView
      reads this, cart
    {
      View(cart.items, orderSubmitted, isCheckingOut)
    }

    /** The send control the checkout form shows now. */
    function CurrentSend(): SendControl
      reads this, cart
    {
      CheckoutSend(cart.items, deliveryMethod, address)
    }

    /** The minus button of line `k`: one piece fewer, and a line of one piece disappears. */
    method Minus(k: nat)
      requires cart.Valid() && k < |cart.items|
      modifies cart
      ensures cart.Valid() && cart.isOpen == old(cart.isOpen)
      ensures cart.items == QuantityUpdated(old(cart.items), old(cart.items)[k].id, old(cart.items)[k].quantity - 1)
      ensures old(cart.items)[k].quantity == 1 ==> cart.items == old(cart.items)[..k] + old(cart.items)[k + 1..]
      ensures old(cart.items)[k].quantity > 1 ==> cart.Total() == old(cart.Total()) - old(cart.items)[k].price
    {
      var line := cart.items[k];
      if line.quantity == 1 {
        MinusAtOneRemoves(cart.items, k);
      } else {
        QuantityUpdatedTotal(cart.items, k, line.quantity - 1);
      }
      cart.UpdateQuantity(line.id, line.quantity - 1);
    }

    /** The plus button of line `k`: one piece more. */
    method Plus(k: nat)
      requires cart.Valid() && k < |cart.items|
      modifies cart
      ensures cart.Valid() && cart.isOpen == old(cart.isOpen)
      ensures cart.items == QuantityUpdated(old(cart.items), old(cart.items)[k].id, old(cart.items)[k].quantity + 1)
      ensures cart.Total() == old(cart.Total()) + old(cart.items)[k].price
    {
      var line := cart.items[k];
      QuantityUpdatedTotal(cart.items, k, line.quantity + 1);
      cart.UpdateQuantity(line.id, line.quantity + 1);
    }

    /** The remove button of line `k`. */
    method Remove(k: nat)
      requires cart.Valid() && k < |cart.items|
      modifies cart
      ensures cart.Valid() && cart.isOpen == old(cart.isOpen)
      ensures cart.items == old(cart.items)[..k] + old(cart.items)[k + 1..]
      ensures cart.Total() == old(cart.Total()) - Amount(old(cart.items)[k])
    {
      RemoveCutsLine(cart.items, cart.items[k].id, k);
      RemovedTotal(cart.items, k);
      cart.RemoveItem(cart.items[k].id);
    }
  }
}
