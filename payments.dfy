/**
 * Payment bookkeeping: recording a checkout session (POST
 * /payments/checkout), reconciling with the payment provider's reported
 * status (GET /payments/status/{session_id}) and the provider's webhook
 * (POST /webhook/stripe). The provider itself is not modelled: the session
 * id it issues, the status it reports and the webhook event it decodes are
 * inputs.
 */
module Payments {
  import opened Records
  import Ordering

  /** Total quantity of `productId` over the order lines. */
  function QuantityOrdered(lines: seq<OrderLine>, productId: string): int
    decreases |lines|
  {
    if lines == [] then 0
    else
      var last := lines[|lines| - 1];
      QuantityOrdered(lines[..|lines| - 1], productId) + (if last.productId == productId then last.quantity else 0)
  }

  /** One `$inc` of the inventory loop: the line's product, if it exists, loses the line's quantity. */
  function DecrementLine(products: map<string, Product>, line: OrderLine): (r: map<string, Product>)
    ensures r.Keys == products.Keys
    ensures line.productId in products ==>
              r[line.productId] == products[line.productId].(inventory := products[line.productId].inventory - line.quantity)
    ensures forall k :: k in products && k != line.productId ==> r[k] == products[k]
  {
    if line.productId in products then
      products[line.productId := products[line.productId].(inventory := products[line.productId].inventory - line.quantity)]
    else products
  }

  /**
   * The inventory loop of get_payment_status: for each line in order, the
   * product it names (if it still exists) loses that line's quantity. There
   * is no floor at zero, and lines whose product was deleted are skipped.
   */
  function Decrement(products: map<string, Product>, lines: seq<OrderLine>): (r: map<string, Product>)
    ensures r.Keys == products.Keys
    decreases |lines|
  {
    if lines == [] then products
    else DecrementLine(Decrement(products, lines[..|lines| - 1]), lines[|lines| - 1])
  }

  /** The loop's step: decrementing one more line. */
  lemma DecrementStep(products: map<string, Product>, lines: seq<OrderLine>, i: nat)
    requires i < |lines|
    ensures Decrement(products, lines[..i + 1]) == DecrementLine(Decrement(products, lines[..i]), lines[i])
  {
    assert lines[..i + 1][..i] == lines[..i];
  }

  /** The inventory loop keeps every product under its own id. */
  lemma DecrementKeepsIds(products: map<string, Product>, lines: seq<OrderLine>)
    requires forall k :: k in products ==> products[k].id == k
    ensures forall k :: k in Decrement(products, lines) ==> Decrement(products, lines)[k].id == k
  {
    forall k | k in Decrement(products, lines) {
      DecrementEffect(products, lines, k);
    }
  }

  /** Every product loses exactly the total quantity the lines order of it, and nothing else changes. */
  lemma {:induction false} DecrementEffect(products: map<string, Product>, lines: seq<OrderLine>, k: string)
    requires k in products
    ensures Decrement(products, lines)[k] == products[k].(inventory := products[k].inventory - QuantityOrdered(lines, k))
    decreases |lines|
  {
    if lines != [] {
      DecrementEffect(products, lines[..|lines| - 1], k);
    }
  }

  /** Two passes over the same lines take off twice the ordered quantity. */
  lemma DecrementTwice(products: map<string, Product>, lines: seq<OrderLine>, k: string)
    requires k in products
    ensures Decrement(Decrement(products, lines), lines)[k].inventory
            == products[k].inventory - 2 * QuantityOrdered(lines, k)
  {
    DecrementEffect(products, lines, k);
    DecrementEffect(Decrement(products, lines), lines, k);
  }

  /** `update_one({"session_id": s}, {"$set": {"payment_status": status}})`. */
  function RecordStatus(txs: map<string, PaymentTransaction>, sessionId: string, status: string)
    : (r: map<string, PaymentTransaction>)
    ensures r.Keys == txs.Keys
    ensures sessionId in txs ==> r[sessionId] == txs[sessionId].(paymentStatus := status)
    ensures forall s :: s in txs && s != sessionId ==> r[s] == txs[s]
  {
    if sessionId in txs then txs[sessionId := txs[sessionId].(paymentStatus := status)] else txs
  }

  /** The order a session's transaction points to, read as `if order_id:` and `if order:` read it. */
  function LinkedOrder(t: Tables, sessionId: string): (r: Option<string>)
    ensures r.Some? <==>
              && sessionId in t.transactions
              && t.transactions[sessionId].orderId.Some?
              && t.transactions[sessionId].orderId.value != ""
              && t.transactions[sessionId].orderId.value in t.orders
    ensures r.Some? ==> r.value == t.transactions[sessionId].orderId.value
  {
    if sessionId in t.transactions then
      match t.transactions[sessionId].orderId
      case Some(oid) => if oid != "" && oid in t.orders then Some(oid) else None
      case None => None
    else None
  }

  /** `$set` of payment_status "paid" and order_status "confirmed"; every other field of the order is kept. */
  function ConfirmOrder(o: Order): (r: Order)
    ensures r.paymentStatus == PAID && r.orderStatus == CONFIRMED
    ensures r.id == o.id && r.items == o.items && r.totalAmount == o.totalAmount
    ensures r.customerInfo == o.customerInfo && r.shippingAddress == o.shippingAddress
    ensures r.stripeSessionId == o.stripeSessionId && r.createdAt == o.createdAt
  {
    o.(paymentStatus := PAID, orderStatus := CONFIRMED)
  }

  /**
   * The state effect of get_payment_status, as written: the session's
   * transaction takes the reported status; on "paid" the linked order is
   * marked paid and confirmed and every product it orders loses the ordered
   * quantity. Nothing checks whether the order was already paid.
   */
  function PollPayment(t: Tables, sessionId: string, reported: string): (r: Tables)
    ensures r.transactions == RecordStatus(t.transactions, sessionId, reported)
    ensures reported != PAID || LinkedOrder(t, sessionId).None? ==> r.products == t.products && r.orders == t.orders
    ensures reported == PAID && LinkedOrder(t, sessionId).Some? ==>
              var oid := LinkedOrder(t, sessionId).value;
              && r.orders == t.orders[oid := ConfirmOrder(t.orders[oid])]
              && r.products.Keys == t.products.Keys
              && forall k :: k in t.products ==>
                   r.products[k] == t.products[k].(inventory := t.products[k].inventory - QuantityOrdered(t.orders[oid].items, k))
  {
    var txs := RecordStatus(t.transactions, sessionId, reported);
    match LinkedOrder(t, sessionId)
    case Some(oid) =>
      if reported == PAID then
        var order := ConfirmOrder(t.orders[oid]);
        var products := Decrement(t.products, order.items);
        assert forall k :: k in t.products ==>
          products[k] == t.products[k].(inventory := t.products[k].inventory - QuantityOrdered(order.items, k)) by {
          forall k | k in t.products {
            DecrementEffect(t.products, order.items, k);
          }
        }
        Tables(products, t.orders[oid := order], txs)
      else t.(transactions := txs)
    case None => t.(transactions := txs)
  }

  /**
   * A second "paid" poll for the same session, as written, confirms the
   * order again and takes the ordered quantities off the inventory a second
   * time.
   */
  lemma RepeatedPaidPollDecrementsAgain(t: Tables, sessionId: string, k: string)
    requires LinkedOrder(t, sessionId).Some?
    requires k in t.products
    ensures var oid := LinkedOrder(t, sessionId).value;
            PollPayment(PollPayment(t, sessionId, PAID), sessionId, PAID).products[k].inventory
            == t.products[k].inventory - 2 * QuantityOrdered(t.orders[oid].items, k)
  {
  }

  /** A concrete instance: stock 5, one order of 2, two "paid" polls leave 1 rather than 3. */
  lemma RepeatedPaidPollExample()
    ensures
      var p := Product("p1", "Mug", "", 999, "", 5, 0);
      var line := OrderLine("p1", "Mug", 999, 2, 1998);
      var o := Order("o1", [line], CustomerInfo("", "", ""), ShippingAddress("", "", "", "", "US"),
                     1998, PENDING, PROCESSING, Some("s1"), 0);
      var tx := PaymentTransaction("t1", "s1", 1998, USD, PENDING, Some("o1"), map[], 0);
      var t := Tables(map["p1" := p], map["o1" := o], map["s1" := tx]);
      PollPayment(PollPayment(t, "s1", PAID), "s1", PAID).products["p1"].inventory == 1
  {
  }

  /**
   * get_payment_status with the guard the inventory update evidently needs:
   * the order is confirmed and its stock taken only while the order is not
   * already paid.
   */
  function PollPaymentOnce(t: Tables, sessionId: string, reported: string): (r: Tables)
    ensures r.transactions == RecordStatus(t.transactions, sessionId, reported)
    ensures LinkedOrder(t, sessionId).Some? && t.orders[LinkedOrder(t, sessionId).value].paymentStatus == PAID ==>
              r.products == t.products && r.orders == t.orders
  {
    var txs := RecordStatus(t.transactions, sessionId, reported);
    match LinkedOrder(t, sessionId)
    case Some(oid) =>
      if reported == PAID && t.orders[oid].paymentStatus != PAID then
        var order := ConfirmOrder(t.orders[oid]);
        Tables(Decrement(t.products, order.items), t.orders[oid := order], txs)
      else t.(transactions := txs)
    case None => t.(transactions := txs)
  }

  /** On an order not yet paid, the guarded poll does what the as-written poll does. */
  lemma PollPaymentOnceAgrees(t: Tables, sessionId: string, reported: string)
    requires LinkedOrder(t, sessionId).Some? ==> t.orders[LinkedOrder(t, sessionId).value].paymentStatus != PAID
    ensures PollPaymentOnce(t, sessionId, reported) == PollPayment(t, sessionId, reported)
  {
  }

  /** Polling again with the same report changes nothing: stock is taken at most once per order. */
  lemma PollPaymentOnceIdempotent(t: Tables, sessionId: string, reported: string)
    ensures PollPaymentOnce(PollPaymentOnce(t, sessionId, reported), sessionId, reported)
            == PollPaymentOnce(t, sessionId, reported)
  {
  }

  /** Two "paid" polls, guarded, leave each product short by the ordered quantity once. */
  lemma GuardedPaidPollsDecrementOnce(t: Tables, sessionId: string, k: string)
    requires LinkedOrder(t, sessionId).Some?
    requires t.orders[LinkedOrder(t, sessionId).value].paymentStatus != PAID
    requires k in t.products
    ensures var oid := LinkedOrder(t, sessionId).value;
            PollPaymentOnce(PollPaymentOnce(t, sessionId, PAID), sessionId, PAID).products[k].inventory
            == t.products[k].inventory - QuantityOrdered(t.orders[oid].items, k)
  {
    PollPaymentOnceIdempotent(t, sessionId, PAID);
    PollPaymentOnceAgrees(t, sessionId, PAID);
  }

  /**
   * The transaction create_checkout_session records for a new provider
   * session: the amount is the stored order's, the order id the request's.
   */
  function NewTransaction(txId: string, sessionId: string, orderId: string, order: Order, now: Timestamp)
    : (tx: PaymentTransaction)
    ensures tx.id == txId && tx.sessionId == sessionId && tx.createdAt == now
    ensures tx.amount == order.totalAmount && tx.currency == USD
    ensures tx.paymentStatus == PENDING && tx.orderId == Some(orderId)
    ensures tx.metadata == map["order_id" := orderId, "source" := "mobile_checkout"]
  {
    PaymentTransaction(txId, sessionId, order.totalAmount, USD, PENDING, Some(orderId),
                       map["order_id" := orderId, "source" := "mobile_checkout"], now)
  }

  /**
   * The state effect of create_checkout_session: 400 when order_id or
   * origin_url is missing or empty, 404 for an unknown order, otherwise a
   * pending transaction for the order's total under the provider's new
   * session id, and the order remembers that session. `sessionId` is the
   * provider's fresh session id.
   */
  function Checkout(t: Tables, body: map<string, string>, sessionId: string, txId: string, now: Timestamp)
    : (r: Result<Tables>)
    requires sessionId !in t.transactions
    ensures Field(body, "order_id").None? || Field(body, "origin_url").None? ==> r == Err(CheckoutFieldsRequired)
    ensures Field(body, "order_id").Some? && Field(body, "origin_url").Some? && body["order_id"] !in t.orders
            ==> r == Err(OrderNotFound(body["order_id"]))
    ensures r.Ok? <==> Field(body, "order_id").Some? && Field(body, "origin_url").Some? && body["order_id"] in t.orders
    ensures r.Ok? ==>
              var oid := body["order_id"];
              && r.value.products == t.products
              && r.value.orders == t.orders[oid := t.orders[oid].(stripeSessionId := Some(sessionId))]
              && r.value.transactions.Keys == t.transactions.Keys + {sessionId}
              && r.value.transactions[sessionId] == NewTransaction(txId, sessionId, oid, t.orders[oid], now)
              && forall s :: s in t.transactions ==> r.value.transactions[s] == t.transactions[s]
  {
    if Field(body, "order_id").None? || Field(body, "origin_url").None? then Err(CheckoutFieldsRequired)
    else
      var oid := body["order_id"];
      if oid !in t.orders then Err(OrderNotFound(oid))
      else
        var order := t.orders[oid];
        Ok(Tables(t.products,
                  t.orders[oid := order.(stripeSessionId := Some(sessionId))],
                  t.transactions[sessionId := NewTransaction(txId, sessionId, oid, order, now)]))
  }

  /** A checkout links its session to the order it names, so a "paid" poll on that session confirms that order. */
  lemma CheckoutThenPaidPoll(t: Tables, body: map<string, string>, sessionId: string, txId: string, now: Timestamp)
    requires sessionId !in t.transactions
    requires Checkout(t, body, sessionId, txId, now).Ok?
    ensures var after := Checkout(t, body, sessionId, txId, now).value;
            var oid := body["order_id"];
            && LinkedOrder(after, sessionId) == Some(oid)
            && PollPayment(after, sessionId, PAID).orders[oid] == ConfirmOrder(after.orders[oid])
            && PollPayment(after, sessionId, PAID).transactions[sessionId].paymentStatus == PAID
  {
  }

  /**
   * Paying for two different orders takes both orders' quantities off the
   * stock, whatever is left: no step compares the stock with what is sold.
   */
  lemma TwoPaidOrdersTakeBoth(t: Tables, sa: string, sb: string, k: string)
    requires LinkedOrder(t, sa).Some? && LinkedOrder(t, sb).Some?
    requires LinkedOrder(t, sa).value != LinkedOrder(t, sb).value
    requires k in t.products
    ensures var oa := LinkedOrder(t, sa).value;
            var ob := LinkedOrder(t, sb).value;
            PollPayment(PollPayment(t, sa, PAID), sb, PAID).products[k].inventory
            == t.products[k].inventory - QuantityOrdered(t.orders[oa].items, k) - QuantityOrdered(t.orders[ob].items, k)
  {
    var ob := LinkedOrder(t, sb).value;
    var once := PollPayment(t, sa, PAID);
    assert LinkedOrder(once, sb) == Some(ob);
    assert once.orders[ob] == t.orders[ob];
  }

  /**
   * Stock is checked when an order is created but taken only when it is
   * paid, so two orders that each fit the stock are both accepted, and
   * paying for both drives the stock below zero: stock 5, two orders of 5,
   * both paid, leaves -5.
   */
  lemma UnreservedStockOversold(customer: CustomerInfo, shipping: ShippingAddress)
    ensures
      var products := map["p1" := Product("p1", "Mug", "", 999, "", 5, 0)];
      var a := Ordering.CreateOrder(products, "a", [CartItem("p1", 5)], customer, shipping, 0);
      var b := Ordering.CreateOrder(products, "b", [CartItem("p1", 5)], customer, shipping, 0);
      && a.Ok? && b.Ok?
      && (var t := Tables(products, map["a" := a.value, "b" := b.value],
                          map["sa" := PaymentTransaction("ta", "sa", 4995, USD, PENDING, Some("a"), map[], 0),
                              "sb" := PaymentTransaction("tb", "sb", 4995, USD, PENDING, Some("b"), map[], 0)]);
          PollPayment(PollPayment(t, "sa", PAID), "sb", PAID).products["p1"].inventory == -5)
  {
    var products := map["p1" := Product("p1", "Mug", "", 999, "", 5, 0)];
    var item := CartItem("p1", 5);
    var a := Ordering.CreateOrder(products, "a", [item], customer, shipping, 0);
    var b := Ordering.CreateOrder(products, "b", [item], customer, shipping, 0);
    Ordering.PriceItemsSucceedsIff(products, [item]);
    var line := Ordering.LineFor(products["p1"], item);
    assert a.value.items == [line] && b.value.items == [line];
    assert QuantityOrdered([line], "p1") == 5;
    var t := Tables(products, map["a" := a.value, "b" := b.value],
                    map["sa" := PaymentTransaction("ta", "sa", 4995, USD, PENDING, Some("a"), map[], 0),
                        "sb" := PaymentTransaction("tb", "sb", 4995, USD, PENDING, Some("b"), map[], 0)]);
    TwoPaidOrdersTakeBoth(t, "sa", "sb", "p1");
  }

  /** A webhook event as the provider's library decodes it. */
  datatype WebhookEvent = WebhookEvent(eventType: string, sessionId: string, paymentStatus: string)

  /** The event types whose status the webhook records. */
  const RecordedEvents: set<string> := {"checkout.session.completed", "payment_intent.succeeded"}

  /**
   * The state effect of stripe_webhook on the transaction table. `event` is
   * None when the provider's library rejects the payload or its signature,
   * which the endpoint reports as 400.
   */
  function Webhook(txs: map<string, PaymentTransaction>, event: Option<WebhookEvent>)
    : (r: Result<map<string, PaymentTransaction>>)
    ensures r.Err? <==> event.None?
    ensures r.Err? ==> r.error == WebhookRejected
    ensures r.Ok? && event.value.eventType !in RecordedEvents ==> r.value == txs
    ensures r.Ok? && event.value.eventType in RecordedEvents ==>
              r.value == RecordStatus(txs, event.value.sessionId, event.value.paymentStatus)
  {
    match event
    case None => Err(WebhookRejected)
    case Some(e) =>
      if e.eventType in RecordedEvents then Ok(RecordStatus(txs, e.sessionId, e.paymentStatus)) else Ok(txs)
  }

  /**
   * The webhook neither confirms orders nor stands in for the poll: a later
   * poll changes orders and stock exactly as it would have without it.
   */
  lemma WebhookLeavesPollEffect(t: Tables, event: Option<WebhookEvent>, sessionId: string, reported: string)
    requires Webhook(t.transactions, event).Ok?
    ensures var t' := t.(transactions := Webhook(t.transactions, event).value);
            && PollPayment(t', sessionId, reported).products == PollPayment(t, sessionId, reported).products
            && PollPayment(t', sessionId, reported).orders == PollPayment(t, sessionId, reported).orders
  {
  }
}
