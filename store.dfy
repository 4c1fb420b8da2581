/**
 * The backend's database as one object whose three collections the request
 * handlers update in place. Each method is one endpoint's effect on the
 * collections, proved against the specification functions of Catalog,
 * Ordering and Payments; one request runs at a time.
 */
module Storefront {
  import opened Records
  import Catalog
  import Ordering
  import Payments

  class Store {
    var products: map<string, Product>
    var orders: map<string, Order>
    var transactions: map<string, PaymentTransaction>

    ghost predicate Valid()
      reads this
    {
      WellKeyed(Tables(products, orders, transactions))
    }

    function Snapshot(): Tables
      reads this
    {
      Tables(products, orders, transactions)
    }

    constructor ()
      ensures Valid()
      ensures products == map[] && orders == map[] && transactions == map[]
    {
      products, orders, transactions := map[], map[], map[];
    }

    /** POST /products with a fresh id. */
    method CreateProduct(id: string, data: ProductCreate, now: Timestamp) returns (p: Product)
      requires Valid() && id !in products
      modifies this
      ensures Valid()
      ensures p == Catalog.NewProduct(id, data, now)
      ensures products == old(products)[id := p]
      ensures orders == old(orders) && transactions == old(transactions)
    {
      p := Catalog.NewProduct(id, data, now);
      products := products[id := p];
    }

    /** PUT /products/{id}: only given fields are written, and nothing at all when none is given. */
    method UpdateProduct(id: string, u: ProductUpdate) returns (r: Result<Product>)
      requires Valid()
      modifies this
      ensures Valid()
      ensures r == Catalog.UpdateProduct(old(products), id, u)
      ensures products == Catalog.UpdatedTable(old(products), id, u)
      ensures orders == old(orders) && transactions == old(transactions)
    {
      if id !in products {
        return Err(ProductNotFound(id));
      }
      if u != Catalog.NoChanges {
        products := products[id := Catalog.MergeUpdate(products[id], u)];
      } else {
        Catalog.MergeNoChanges(products[id]);
      }
      r := Ok(products[id]);
    }

    /** DELETE /products/{id}. */
    method DeleteProduct(id: string) returns (r: Result<()>)
      requires Valid()
      modifies this
      ensures Valid()
      ensures r.Err? <==> id !in old(products)
      ensures r.Err? ==> r.error == ProductNotFound(id) && products == old(products)
      ensures r.Ok? ==> products == Catalog.DeleteProduct(old(products), id).value
      ensures orders == old(orders) && transactions == old(transactions)
    {
      if id !in products {
        return Err(ProductNotFound(id));
      }
      products := products - {id};
      r := Ok(());
    }

    /**
     * The loop of create_order: walks the items in order, stops at the first
     * one whose product is missing or short of stock, and otherwise builds
     * the priced lines and their running total. Reads the catalogue only.
     */
    method PriceOrder(items: seq<CartItem>) returns (r: Result<(seq<OrderLine>, Money)>)
      ensures r.Err? <==> Ordering.PriceItems(products, items).Err?
      ensures r.Err? ==> r.error == Ordering.PriceItems(products, items).error
      ensures r.Ok? ==> r.value.0 == Ordering.PriceItems(products, items).value
      ensures r.Ok? ==> r.value.1 == Ordering.OrderTotal(r.value.0)
    {
      var total: Money := 0;
      var lines: seq<OrderLine> := [];
      for i := 0 to |items|
        invariant Ordering.PriceItems(products, items[..i]) == Ok(lines)
        invariant total == Ordering.OrderTotal(lines)
      {
        var item := items[i];
        Ordering.PriceItemsStep(products, items, i);
        if item.productId !in products {
          Ordering.FailureIsFinal(products, items, i + 1);
          return Err(ProductNotFound(item.productId));
        }
        var product := products[item.productId];
        if product.inventory < item.quantity {
          Ordering.FailureIsFinal(products, items, i + 1);
          return Err(InsufficientInventory(product.name));
        }
        var itemTotal := product.price * item.quantity;
        total := total + itemTotal;
        lines := lines + [OrderLine(item.productId, product.name, product.price, item.quantity, itemTotal)];
        assert lines[..|lines| - 1] == lines[..i];
      }
      assert items[..|items|] == items;
      r := Ok((lines, total));
    }

    /** POST /orders with a fresh order id: stores the order only when every item passes; stock is not reserved. */
    method CreateOrder(orderId: string, items: seq<CartItem>, customer: CustomerInfo,
                       shipping: ShippingAddress, now: Timestamp) returns (r: Result<Order>)
      requires Valid() && orderId !in orders
      modifies this
      ensures Valid()
      ensures r == Ordering.CreateOrder(old(products), orderId, items, customer, shipping, now)
      ensures orders == (if r.Ok? then old(orders)[orderId := r.value] else old(orders))
      ensures products == old(products) && transactions == old(transactions)
    {
      var priced := PriceOrder(items);
      match priced
      case Err(e) =>
        r := Err(e);
      case Ok((lines, total)) =>
        var order := Order(orderId, lines, customer, shipping, total, PENDING, PROCESSING, None, now);
        orders := orders[orderId := order];
        r := Ok(order);
    }

    /** PUT /orders/{id}/status: the status is checked before the order is looked up. */
    method UpdateOrderStatus(orderId: string, body: map<string, string>) returns (r: Result<()>)
      requires Valid()
      modifies this
      ensures Valid()
      ensures r.Ok? <==> Ordering.UpdateOrderStatus(old(orders), orderId, body).Ok?
      ensures r.Err? ==> r.error == Ordering.UpdateOrderStatus(old(orders), orderId, body).error && orders == old(orders)
      ensures r.Ok? ==> Ordering.UpdateOrderStatus(old(orders), orderId, body) == Ok(orders)
      ensures products == old(products) && transactions == old(transactions)
    {
      var newStatus := Field(body, "order_status");
      if newStatus.None? {
        return Err(OrderStatusRequired);
      }
      if orderId !in orders {
        return Err(OrderNotFound(orderId));
      }
      orders := orders[orderId := orders[orderId].(orderStatus := newStatus.value)];
      r := Ok(());
    }

    /** The database writes of POST /payments/checkout, given the provider's fresh session id. */
    method CreateCheckoutSession(body: map<string, string>, sessionId: string, txId: string, now: Timestamp)
      returns (r: Result<()>)
      requires Valid() && sessionId !in transactions
      modifies this
      ensures Valid()
      ensures var spec := Payments.Checkout(old(Snapshot()), body, sessionId, txId, now);
              && (r.Err? <==> spec.Err?)
              && (r.Err? ==> r.error == spec.error && Snapshot() == old(Snapshot()))
              && (r.Ok? ==> Snapshot() == spec.value)
    {
      var orderId := Field(body, "order_id");
      var originUrl := Field(body, "origin_url");
      if orderId.None? || originUrl.None? {
        return Err(CheckoutFieldsRequired);
      }
      if orderId.value !in orders {
        return Err(OrderNotFound(orderId.value));
      }
      var order := orders[orderId.value];
      transactions := transactions[sessionId := Payments.NewTransaction(txId, sessionId, orderId.value, order, now)];
      orders := orders[orderId.value := order.(stripeSessionId := Some(sessionId))];
      r := Ok(());
    }

    /** The inventory loop of get_payment_status: each line's product, if it exists, loses the line's quantity. */
    method DeductInventory(lines: seq<OrderLine>)
      requires Valid()
      modifies this
      ensures Valid()
      ensures products == Payments.Decrement(old(products), lines)
      ensures orders == old(orders) && transactions == old(transactions)
    {
      ghost var before := products;
      for i := 0 to |lines|
        invariant products == Payments.Decrement(before, lines[..i])
        invariant orders == old(orders) && transactions == old(transactions)
      {
        Payments.DecrementStep(before, lines, i);
        var line := lines[i];
        if line.productId in products {
          var p := products[line.productId];
          products := products[line.productId := p.(inventory := p.inventory - line.quantity)];
        }
      }
      assert lines[..|lines|] == lines;
      Payments.DecrementKeepsIds(before, lines);
    }

    /** The database writes of GET /payments/status/{session_id}, as written, for the provider's report. */
    method GetPaymentStatus(sessionId: string, reported: string)
      requires Valid()
      modifies this
      ensures Valid()
      ensures Snapshot() == Payments.PollPayment(old(Snapshot()), sessionId, reported)
    {
      if sessionId in transactions {
        transactions := transactions[sessionId := transactions[sessionId].(paymentStatus := reported)];
      }
      if reported == PAID && sessionId in transactions {
        var orderId := transactions[sessionId].orderId;
        if orderId.Some? && orderId.value != "" {
          if orderId.value in orders {
            orders := orders[orderId.value := Payments.ConfirmOrder(orders[orderId.value])];
          }
          if orderId.value in orders {
            DeductInventory(orders[orderId.value].items);
          }
        }
      }
    }

    /** GET /payments/status/{session_id} with the guard against confirming an order twice. */
    method GetPaymentStatusGuarded(sessionId: string, reported: string)
      requires Valid()
      modifies this
      ensures Valid()
      ensures Snapshot() == Payments.PollPaymentOnce(old(Snapshot()), sessionId, reported)
    {
      if sessionId in transactions {
        transactions := transactions[sessionId := transactions[sessionId].(paymentStatus := reported)];
      }
      if reported == PAID && sessionId in transactions {
        var orderId := transactions[sessionId].orderId;
        if orderId.Some? && orderId.value != "" && orderId.value in orders
           && orders[orderId.value].paymentStatus != PAID {
          orders := orders[orderId.value := Payments.ConfirmOrder(orders[orderId.value])];
          DeductInventory(orders[orderId.value].items);
        }
      }
    }

    /** POST /webhook/stripe, given the event the provider's library decoded (None when it rejected it). */
    method StripeWebhook(event: Option<Payments.WebhookEvent>) returns (r: Result<()>)
      requires Valid()
      modifies this
      ensures Valid()
      ensures var spec := Payments.Webhook(old(transactions), event);
              && (r.Err? <==> spec.Err?)
              && (r.Err? ==> r.error == spec.error && transactions == old(transactions))
              && (r.Ok? ==> transactions == spec.value)
      ensures products == old(products) && orders == old(orders)
    {
      if event.None? {
        return Err(WebhookRejected);
      }
      var e := event.value;
      if e.eventType in Payments.RecordedEvents && e.sessionId in transactions {
        transactions := transactions[e.sessionId := transactions[e.sessionId].(paymentStatus := e.paymentStatus)];
      }
      r := Ok(());
    }
  }
}
