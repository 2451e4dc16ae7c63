/**
 * The documents of the storefront's database (the `products`, `orders` and `admins` tables)
 * and the cart line kept in the browser.
 */
module Types {
  import opened Wrappers

  /** `"originals" | "merch"` */
  datatype Category = Originals | Merch

  /** A `products` document; `id` and `creationTime` are the system fields `_id` and `_creationTime`. */
  datatype Product = Product(
    id: string,
    creationTime: int,
    name: string,
    price: int,
    category: Category,
    subcategory: Option<string>,
    images: seq<string>,
    description: string,
    isSold: bool,
    seriesId: Option<string>,
    createdAt: int)

  /** A line of the shopping cart, keyed by the product id. */
  datatype CartItem = CartItem(id: string, name: string, price: int, quantity: int, images: seq<string>)

  /** `"pending" | "confirmed" | "shipped" | "delivered" | "cancelled"` */
  datatype OrderStatus = Pending | Confirmed | Shipped | Delivered | Cancelled

  datatype OrderItem = OrderItem(productId: string, name: string, price: int, quantity: int)

  /** An `orders` document; `status` is optional in the schema. */
  datatype Order = Order(
    id: string,
    creationTime: int,
    customerName: string,
    phone: string,
    email: Option<string>,
    address: Option<string>,
    deliveryMethod: string,
    items: seq<OrderItem>,
    total: int,
    status: Option<OrderStatus>,
    createdAt: int)

  /** An `admins` document. */
  datatype Admin = Admin(id: string, passwordHash: string, createdAt: int)

  /** A JavaScript string is truthy exactly when it is not empty. */
  predicate Truthy(s: Option<string>) {
    s.Some? && s.value != ""
  }
}
