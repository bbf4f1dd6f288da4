/** The records the storefront exchanges with its backend. Money is a whole
    number of rupees; a field the source marks optional is an `Option`. */
module Types {
  import opened Wrappers

  /** `role: "user" | "admin"` */
  datatype Role = Customer | Admin

  function RoleText(r: Role): string {
    match r
    case Customer => "user"
    case Admin => "admin"
  }

  /** A signed-in account, with the shipping fields the backend may attach. */
  datatype User = User(
    id: int,
    name: string,
    email: string,
    role: Role,
    shippingName: Option<string>,
    shippingMobile: Option<string>,
    shippingLine1: Option<string>,
    shippingLine2: Option<string>,
    shippingCity: Option<string>,
    shippingState: Option<string>,
    shippingPostalCode: Option<string>,
    shippingCountry: Option<string>)

  /** A catalogue entry; `stock` is a count of units. */
  datatype Product = Product(
    id: int,
    name: string,
    price: int,
    description: string,
    stock: nat,
    imageUrl: string)

  /** One line of the server-held cart. */
  datatype CartLine = CartLine(
    productId: int,
    name: string,
    price: int,
    quantity: int,
    imageUrl: Option<string>)

  /** One line of a placed order, snapshotted at purchase time. */
  datatype OrderItem = OrderItem(
    productId: int,
    name: string,
    quantity: int,
    price: int)

  /** A delivery address. A required field the backend leaves out is read as
      "" (both are falsy to the checks that use them). */
  datatype Shipping = Shipping(
    shippingName: string,
    shippingMobile: string,
    shippingLine1: string,
    shippingLine2: Option<string>,
    shippingCity: string,
    shippingState: string,
    shippingPostalCode: string,
    shippingCountry: string)

  /** An order as the backend reports it. `status`, `paymentStatus` and
      `cancelledBy` are kept as the strings the backend sends, because the
      pages compare them against literals and fall through to a default. */
  datatype Order = Order(
    id: int,
    userId: Option<int>,
    user: Option<string>,
    total: int,
    status: string,
    createdAt: string,
    items: Option<seq<OrderItem>>,
    shipping: Option<Shipping>,
    paymentMethod: Option<string>,
    paymentStatus: Option<string>,
    cancelledBy: Option<string>)

  const Pending := "pending"
  const Shipped := "shipped"
  const Delivered := "delivered"
  const Cancelled := "cancelled"
}
