/**
 * The records the storefront backend keeps in its three collections
 * (products, orders, payment transactions), the request bodies that feed
 * them, and the HTTP errors its endpoints raise.
 *
 * Money is modelled as an integer number of cents; the backend stores
 * floats, and IEEE rounding is not part of this model.  Timestamps are
 * abstract naturals supplied by the caller, and ids are fresh strings
 * supplied by the caller (the backend draws them from uuid4).
 */
module Records {

  datatype Option<T> = None | Some(value: T)

  datatype Result<T> = Ok(value: T) | Err(error: Error)

  type Money = int
  type Timestamp = nat

  /** The HTTPException kinds raised by the modelled endpoints. */
  datatype Error =
    | ProductNotFound(productId: string)
    | InsufficientInventory(productName: string)
    | OrderNotFound(orderId: string)
    | OrderStatusRequired
    | CheckoutFieldsRequired
    | InvalidCredentials
    | WebhookRejected

  /** The HTTP status code each error is reported with. */
  function StatusCode(e: Error): (code: int)
    ensures code == 404 <==> (e.ProductNotFound? || e.OrderNotFound?)
    ensures code == 401 <==> e.InvalidCredentials?
    ensures code in {400, 401, 404}
  {
    match e
    case ProductNotFound(_) => 404
    case OrderNotFound(_) => 404
    case InvalidCredentials => 401
    case InsufficientInventory(_) => 400
    case OrderStatusRequired => 400
    case CheckoutFieldsRequired => 400
    case WebhookRejected => 400
  }

  // Status strings the backend writes and compares against.
  const PENDING: string := "pending"
  const PROCESSING: string := "processing"
  const PAID: string := "paid"
  const CONFIRMED: string := "confirmed"
  const USD: string := "usd"

  datatype Product = Product(
    id: string,
    name: string,
    description: string,
    price: Money,
    imageBase64: string,
    inventory: int,
    createdAt: Timestamp)

  /** Body of POST /products; an absent inventory defaults to 0. */
  datatype ProductCreate = ProductCreate(
    name: string,
    description: string,
    price: Money,
    imageBase64: string,
    inventory: Option<int>)

  /** Body of PUT /products/{id}; `None` means the field was not given. */
  datatype ProductUpdate = ProductUpdate(
    name: Option<string>,
    description: Option<string>,
    price: Option<Money>,
    imageBase64: Option<string>,
    inventory: Option<int>)

  /** One requested line of POST /orders. The backend does not bound quantity. */
  datatype CartItem = CartItem(productId: string, quantity: int)

  datatype CustomerInfo = CustomerInfo(name: string, email: string, phone: string)

  datatype ShippingAddress = ShippingAddress(
    street: string,
    city: string,
    state: string,
    zipCode: string,
    country: string)

  /** A stored order line: the product's name and price copied at order time. */
  datatype OrderLine = OrderLine(
    productId: string,
    name: string,
    price: Money,
    quantity: int,
    total: Money)

  datatype Order = Order(
    id: string,
    items: seq<OrderLine>,
    customerInfo: CustomerInfo,
    shippingAddress: ShippingAddress,
    totalAmount: Money,
    paymentStatus: string,
    orderStatus: string,
    stripeSessionId: Option<string>,
    createdAt: Timestamp)

  datatype PaymentTransaction = PaymentTransaction(
    id: string,
    sessionId: string,
    amount: Money,
    currency: string,
    paymentStatus: string,
    orderId: Option<string>,
    metadata: map<string, string>,
    createdAt: Timestamp)

  /**
   * The three collections. Products and orders are keyed by their id;
   * payment transactions are keyed by their checkout session id, the only
   * key the backend ever looks them up by.
   */
  datatype Tables = Tables(
    products: map<string, Product>,
    orders: map<string, Order>,
    transactions: map<string, PaymentTransaction>)

  /** Every record sits under its own key. */
  ghost predicate WellKeyed(t: Tables) {
    && (forall k :: k in t.products ==> t.products[k].id == k)
    && (forall k :: k in t.orders ==> t.orders[k].id == k)
    && (forall s :: s in t.transactions ==> t.transactions[s].sessionId == s)
  }

  /** The value a request body holds under `key`, treating "" as absent (Python's `if not value`). */
  function Field(body: map<string, string>, key: string): (r: Option<string>)
    ensures r.Some? <==> key in body && body[key] != ""
    ensures r.Some? ==> r.value == body[key]
  {
    if key in body && body[key] != "" then Some(body[key]) else None
  }
}
