/**
 * Order creation (POST /orders) and the admin's order status update
 * (PUT /orders/{id}/status).
 */
module Ordering {
  import opened Records

  /** What `quantity` units at `price` cost. */
  function Cost(price: Money, quantity: int): Money {
    price * quantity
  }

  /** The line stored for one requested item, priced from the product as it is now. */
  function LineFor(p: Product, item: CartItem): OrderLine {
    OrderLine(item.productId, p.name, p.price, item.quantity, Cost(p.price, item.quantity))
  }

  /**
   * An item passes create_order's two checks: its product exists and has at
   * least the requested quantity in stock. Each item is judged against the
   * full stock on its own.
   */
  predicate Available(products: map<string, Product>, item: CartItem) {
    item.productId in products && item.quantity <= products[item.productId].inventory
  }

  /** The error create_order raises for an item that fails its checks. */
  function ItemError(products: map<string, Product>, item: CartItem): Error {
    if item.productId !in products then ProductNotFound(item.productId)
    else InsufficientInventory(products[item.productId].name)
  }

  /** The two checks and the pricing create_order applies to one item. */
  function PriceItem(products: map<string, Product>, item: CartItem): (r: Result<OrderLine>)
    ensures r.Ok? <==> Available(products, item)
    ensures r.Err? ==> r.error == ItemError(products, item)
    ensures r.Ok? ==> r.value == LineFor(products[item.productId], item)
  {
    if item.productId !in products then Err(ProductNotFound(item.productId))
    else if products[item.productId].inventory < item.quantity then
      Err(InsufficientInventory(products[item.productId].name))
    else Ok(LineFor(products[item.productId], item))
  }

  /**
   * The loop of create_order as a left fold over the requested items: the
   * first item that fails a check ends it with that item's error; otherwise
   * each item contributes its priced line, in input order.
   */
  function PriceItems(products: map<string, Product>, items: seq<CartItem>): (r: Result<seq<OrderLine>>)
    ensures r.Ok? ==> |r.value| == |items|
    ensures r.Ok? ==> forall i :: 0 <= i < |items| ==>
              items[i].productId in products && r.value[i] == LineFor(products[items[i].productId], items[i])
    decreases |items|
  {
    if items == [] then Ok([])
    else
      match PriceItems(products, items[..|items| - 1])
      case Err(e) => Err(e)
      case Ok(lines) =>
        match PriceItem(products, items[|items| - 1])
        case Err(e) => Err(e)
        case Ok(line) => Ok(lines + [line])
  }

  /** One more turn of the loop, after a prefix that passed. */
  lemma PriceItemsStep(products: map<string, Product>, items: seq<CartItem>, i: nat)
    requires i < |items| && PriceItems(products, items[..i]).Ok?
    ensures PriceItems(products, items[..i + 1]) ==
            match PriceItem(products, items[i])
            case Err(e) => Err(e)
            case Ok(line) => Ok(PriceItems(products, items[..i]).value + [line])
  {
    assert items[..i + 1][..i] == items[..i];
  }

  /** The running total of create_order: the sum of the stored line totals. */
  function OrderTotal(lines: seq<OrderLine>): Money
    decreases |lines|
  {
    if lines == [] then 0 else OrderTotal(lines[..|lines| - 1]) + lines[|lines| - 1].total
  }

  /** The running total is additive: the total of two runs of lines is the sum of their totals. */
  lemma {:induction false} OrderTotalConcat(a: seq<OrderLine>, b: seq<OrderLine>)
    ensures OrderTotal(a + b) == OrderTotal(a) + OrderTotal(b)
    decreases |b|
  {
    if b != [] {
      assert (a + b)[..|a + b| - 1] == a + b[..|b| - 1];
      OrderTotalConcat(a, b[..|b| - 1]);
    } else {
      assert a + b == a;
    }
  }

  /** With no negative line total, the order total is not negative. */
  lemma {:induction false} OrderTotalNonNegative(lines: seq<OrderLine>)
    requires forall i :: 0 <= i < |lines| ==> lines[i].total >= 0
    ensures OrderTotal(lines) >= 0
    decreases |lines|
  {
    if lines != [] {
      var prefix := lines[..|lines| - 1];
      assert forall i :: 0 <= i < |prefix| ==> prefix[i] == lines[i];
      OrderTotalNonNegative(prefix);
    }
  }

  /** Independent reference: the sum of price times quantity over the requested items. */
  function ItemsCost(products: map<string, Product>, items: seq<CartItem>): Money
    requires forall i :: 0 <= i < |items| ==> items[i].productId in products
    decreases |items|
  {
    if items == [] then 0
    else Cost(products[items[0].productId].price, items[0].quantity) + ItemsCost(products, items[1..])
  }

  /** The order succeeds exactly when every item, on its own, passes both checks. */
  lemma {:induction false} PriceItemsSucceedsIff(products: map<string, Product>, items: seq<CartItem>)
    ensures PriceItems(products, items).Ok? <==> forall i :: 0 <= i < |items| ==> Available(products, items[i])
    decreases |items|
  {
    if items != [] {
      var prefix := items[..|items| - 1];
      PriceItemsSucceedsIff(products, prefix);
      assert forall i :: 0 <= i < |prefix| ==> prefix[i] == items[i];
    }
  }

  /** Whichever failing item comes first decides the error. */
  lemma {:induction false} PriceItemsFirstFailure(products: map<string, Product>, items: seq<CartItem>, i: nat)
    requires i < |items| && !Available(products, items[i])
    requires forall j :: 0 <= j < i ==> Available(products, items[j])
    ensures PriceItems(products, items) == Err(ItemError(products, items[i]))
    decreases |items|
  {
    var prefix := items[..|items| - 1];
    assert forall j :: 0 <= j < |prefix| ==> prefix[j] == items[j];
    if i == |items| - 1 {
      PriceItemsSucceedsIff(products, prefix);
    } else {
      PriceItemsFirstFailure(products, prefix, i);
    }
  }

  /** Once a prefix of the items fails, the whole request fails with the same error. */
  lemma {:induction false} FailureIsFinal(products: map<string, Product>, items: seq<CartItem>, n: nat)
    requires n <= |items| && PriceItems(products, items[..n]).Err?
    ensures PriceItems(products, items) == PriceItems(products, items[..n])
    decreases |items| - n
  {
    if n < |items| {
      var prefix := items[..|items| - 1];
      assert prefix[..n] == items[..n];
      FailureIsFinal(products, prefix, n);
    } else {
      assert items[..n] == items;
    }
  }

  lemma {:induction false} ItemsCostSnoc(products: map<string, Product>, items: seq<CartItem>)
    requires items != []
    requires forall i :: 0 <= i < |items| ==> items[i].productId in products
    ensures ItemsCost(products, items) ==
            ItemsCost(products, items[..|items| - 1])
            + Cost(products[items[|items| - 1].productId].price, items[|items| - 1].quantity)
    decreases |items|
  {
    if |items| > 1 {
      var rest := items[1..];
      assert rest[..|rest| - 1] == items[..|items| - 1][1..];
      ItemsCostSnoc(products, rest);
    }
  }

  /** The stored total_amount is the sum of price times quantity over the requested items. */
  lemma {:induction false} TotalIsItemsCost(products: map<string, Product>, items: seq<CartItem>)
    requires PriceItems(products, items).Ok?
    ensures forall i :: 0 <= i < |items| ==> items[i].productId in products
    ensures OrderTotal(PriceItems(products, items).value) == ItemsCost(products, items)
    decreases |items|
  {
    if items != [] {
      var prefix := items[..|items| - 1];
      var last := items[|items| - 1];
      var before := PriceItems(products, prefix).value;
      var lines := PriceItems(products, items).value;
      assert lines == before + [LineFor(products[last.productId], last)];
      assert lines[..|lines| - 1] == before;
      TotalIsItemsCost(products, prefix);
      ItemsCostSnoc(products, items);
    }
  }

  /** Two lines for one product are not pooled: each is checked against the full stock. */
  lemma DuplicateLinesNotPooled(products: map<string, Product>, a: CartItem, b: CartItem)
    requires a.productId == b.productId
    requires Available(products, a) && Available(products, b)
    ensures PriceItems(products, [a, b]).Ok?
  {
    PriceItemsSucceedsIff(products, [a, b]);
  }

  /** The record POST /orders stores: priced lines, their total, pending and processing. */
  function CreateOrder(products: map<string, Product>, orderId: string, items: seq<CartItem>,
                       customer: CustomerInfo, shipping: ShippingAddress, now: Timestamp): (r: Result<Order>)
    ensures r.Err? <==> exists i :: 0 <= i < |items| && !Available(products, items[i])
    ensures r.Err? ==>
              exists i :: && 0 <= i < |items| && !Available(products, items[i])
                          && (forall j :: 0 <= j < i ==> Available(products, items[j]))
                          && r.error == ItemError(products, items[i])
    ensures r.Ok? ==> r.value.id == orderId && r.value.createdAt == now
    ensures r.Ok? ==> r.value.customerInfo == customer && r.value.shippingAddress == shipping
    ensures r.Ok? ==> r.value.paymentStatus == PENDING && r.value.orderStatus == PROCESSING
    ensures r.Ok? ==> r.value.stripeSessionId.None?
    ensures r.Ok? ==> PriceItems(products, items) == Ok(r.value.items)
    ensures r.Ok? ==>
              && (forall i :: 0 <= i < |items| ==> items[i].productId in products)
              && r.value.totalAmount == ItemsCost(products, items)
  {
    PriceItemsSucceedsIff(products, items);
    match PriceItems(products, items)
    case Err(e) =>
      FirstFailureExists(products, items);
      Err(e)
    case Ok(lines) =>
      TotalIsItemsCost(products, items);
      Ok(Order(orderId, lines, customer, shipping, OrderTotal(lines), PENDING, PROCESSING, None, now))
  }

  /** A failing request has a first failing item, and its error is that item's. */
  lemma {:induction false} FirstFailureExists(products: map<string, Product>, items: seq<CartItem>)
    requires PriceItems(products, items).Err?
    ensures exists i :: 0 <= i < |items| && !Available(products, items[i])
              && (forall j :: 0 <= j < i ==> Available(products, items[j]))
              && PriceItems(products, items).error == ItemError(products, items[i])
    decreases |items|
  {
    var prefix := items[..|items| - 1];
    assert forall j :: 0 <= j < |prefix| ==> prefix[j] == items[j];
    if PriceItems(products, prefix).Err? {
      FirstFailureExists(products, prefix);
      var i :| 0 <= i < |prefix| && !Available(products, prefix[i])
               && (forall j :: 0 <= j < i ==> Available(products, prefix[j]))
               && PriceItems(products, prefix).error == ItemError(products, prefix[i]);
      assert !Available(products, items[i]);
    } else {
      PriceItemsSucceedsIff(products, prefix);
      var i := |items| - 1;
      assert !Available(products, items[i]);
    }
  }

  /** The order table after PUT /orders/{id}/status. */
  function UpdateOrderStatus(orders: map<string, Order>, orderId: string, body: map<string, string>)
    : (r: Result<map<string, Order>>)
    ensures Field(body, "order_status").None? ==> r == Err(OrderStatusRequired)
    ensures Field(body, "order_status").Some? && orderId !in orders ==> r == Err(OrderNotFound(orderId))
    ensures r.Ok? <==> Field(body, "order_status").Some? && orderId in orders
    ensures r.Ok? ==> r.value.Keys == orders.Keys
    ensures r.Ok? ==> r.value[orderId] == orders[orderId].(orderStatus := body["order_status"])
    ensures r.Ok? ==> forall k :: k in orders && k != orderId ==> r.value[k] == orders[k]
  {
    match Field(body, "order_status")
    case None => Err(OrderStatusRequired)
    case Some(status) =>
      if orderId !in orders then Err(OrderNotFound(orderId))
      else Ok(orders[orderId := orders[orderId].(orderStatus := status)])
  }
}
