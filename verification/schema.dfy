/** The shared record shapes of the storefront: catalog products, orders, and
    the insert shapes the store accepts (the same records without the fields
    the store assigns, with every remaining field present; the columns that
    have a database default are optional in the source's insert schema and
    are required here). Money is integer minor units (decimal(10,2) times
    100) and ratings are integer tenths (decimal(2,1) times 10). */
module Schema {

  /** An opaque clock reading (`new Date()`), supplied by the caller. */
  datatype Timestamp = Timestamp(millis: int)

  datatype Product = Product(
    id: string,
    name: string,
    description: string,
    price: int,
    imageUrl: string,
    category: string,
    inStock: bool,
    stockQuantity: int,
    rating: int,
    reviewCount: int,
    featured: bool,
    createdAt: Timestamp)

  /** A product as submitted for insertion: no `id`, no `createdAt`. */
  datatype InsertProduct = InsertProduct(
    name: string,
    description: string,
    price: int,
    imageUrl: string,
    category: string,
    inStock: bool,
    stockQuantity: int,
    rating: int,
    reviewCount: int,
    featured: bool)

  /** One entry of an order's frozen item list. */
  datatype OrderItem = OrderItem(id: string, name: string, price: int, quantity: int, imageUrl: string)

  datatype Order = Order(
    id: string,
    customerName: string,
    customerEmail: string,
    customerPhone: string,
    shippingAddress: string,
    city: string,
    postalCode: string,
    paymentMethod: string,
    totalAmount: int,
    status: string,
    items: seq<OrderItem>,
    createdAt: Timestamp)

  /** An order as submitted: no `id`, `createdAt` or `status`. */
  datatype InsertOrder = InsertOrder(
    customerName: string,
    customerEmail: string,
    customerPhone: string,
    shippingAddress: string,
    city: string,
    postalCode: string,
    paymentMethod: string,
    totalAmount: int,
    items: seq<OrderItem>)

  /** The status every new order starts in. */
  const PendingStatus: string := "pending"

  /** The submitted fields of a stored product. */
  function InsertFieldsOfProduct(p: Product): InsertProduct
  {
    InsertProduct(p.name, p.description, p.price, p.imageUrl, p.category,
                  p.inStock, p.stockQuantity, p.rating, p.reviewCount, p.featured)
  }

  /** The submitted fields of a stored order. */
  function InsertFieldsOfOrder(o: Order): InsertOrder
  {
    InsertOrder(o.customerName, o.customerEmail, o.customerPhone, o.shippingAddress,
                o.city, o.postalCode, o.paymentMethod, o.totalAmount, o.items)
  }
}
