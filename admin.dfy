/**
 * The admin endpoints: the fixed-password login (POST /admin/login) and the
 * dashboard aggregates (GET /admin/dashboard).
 */
module Admin {
  import opened Records
  import Ordering
  import Payments

  const ADMIN_PASSWORD: string := "admin123"
  const ADMIN_TOKEN: string := "admin_authenticated"

  /** Login succeeds, with the fixed token, exactly for the one configured password; else 401. */
  function AdminLogin(password: string): (r: Result<string>)
    ensures r.Ok? <==> password == ADMIN_PASSWORD
    ensures r.Ok? ==> r.value == ADMIN_TOKEN
    ensures r.Err? ==> r.error == InvalidCredentials && StatusCode(r.error) == 401
  {
    if password != ADMIN_PASSWORD then Err(InvalidCredentials) else Ok(ADMIN_TOKEN)
  }

  /** The ids of the orders count_documents({"order_status": "processing"}) counts. */
  function PendingIds(orders: map<string, Order>): set<string> {
    set k | k in orders && orders[k].orderStatus == PROCESSING
  }

  /** The pending_orders figure. */
  function PendingCount(orders: map<string, Order>): (n: nat)
    ensures n <= |orders|
  {
    var ids := PendingIds(orders);
    assert ids <= orders.Keys;
    SubsetCard(ids, orders.Keys);
    |ids|
  }

  lemma SubsetCard(a: set<string>, b: set<string>)
    requires a <= b
    ensures |a| <= |b|
  {
    assert b == a + (b - a);
  }

  /** What one order adds to the revenue aggregate: its total when paid, else nothing. */
  function Revenue(o: Order): Money {
    if o.paymentStatus == PAID then o.totalAmount else 0
  }

  /** The total_revenue figure: the sum of total_amount over paid orders (0 when there are none). */
  ghost function PaidRevenue(orders: map<string, Order>): (total: Money)
    ensures (forall k :: k in orders ==> orders[k].totalAmount >= 0) ==> total >= 0
    decreases |orders|
  {
    if orders == map[] then 0
    else
      var k :| k in orders;
      assert |orders - {k}| < |orders| by {
        assert (orders - {k}).Keys == orders.Keys - {k};
      }
      Revenue(orders[k]) + PaidRevenue(orders - {k})
  }

  /** The sum does not depend on the order keys are visited in: any order can be taken out first. */
  lemma {:induction false} PaidRevenueRemove(orders: map<string, Order>, k: string)
    requires k in orders
    ensures PaidRevenue(orders) == Revenue(orders[k]) + PaidRevenue(orders - {k})
    decreases |orders|
  {
    var j :| j in orders && PaidRevenue(orders) == Revenue(orders[j]) + PaidRevenue(orders - {j});
    if j != k {
      var rest := orders - {j};
      assert |rest| < |orders| by {
        assert rest.Keys == orders.Keys - {j};
      }
      PaidRevenueRemove(rest, k);
      var both := orders - {k} - {j};
      assert rest - {k} == both;
      assert |orders - {k}| < |orders| by {
        assert (orders - {k}).Keys == orders.Keys - {k};
      }
      PaidRevenueRemove(orders - {k}, j);
    }
  }

  /** Revenue counts only paid orders: with none paid it is 0. */
  lemma {:induction false} NoPaidOrdersNoRevenue(orders: map<string, Order>)
    requires forall k :: k in orders ==> orders[k].paymentStatus != PAID
    ensures PaidRevenue(orders) == 0
    decreases |orders|
  {
    if orders != map[] {
      var k :| k in orders;
      PaidRevenueRemove(orders, k);
      assert |orders - {k}| < |orders| by {
        assert (orders - {k}).Keys == orders.Keys - {k};
      }
      NoPaidOrdersNoRevenue(orders - {k});
    }
  }

  /** Replacing one order changes the revenue by the difference of what the two contribute. */
  lemma PaidRevenueReplace(orders: map<string, Order>, k: string, o: Order)
    ensures PaidRevenue(orders[k := o]) ==
            PaidRevenue(orders) + Revenue(o) - (if k in orders then Revenue(orders[k]) else 0)
  {
    var updated := orders[k := o];
    PaidRevenueRemove(updated, k);
    if k in orders {
      PaidRevenueRemove(orders, k);
      assert updated - {k} == orders - {k};
    } else {
      assert updated - {k} == orders;
    }
  }

  lemma CardWithout(s: set<string>, k: string)
    ensures |s| == |s - {k}| + (if k in s then 1 else 0)
  {
    if k in s {
      assert s == (s - {k}) + {k};
    } else {
      assert s - {k} == s;
    }
  }

  /** Replacing one order moves the pending count only by that order's own change of status. */
  lemma PendingCountReplace(orders: map<string, Order>, k: string, o: Order)
    ensures PendingCount(orders[k := o]) ==
            PendingCount(orders)
            + (if o.orderStatus == PROCESSING then 1 else 0)
            - (if k in orders && orders[k].orderStatus == PROCESSING then 1 else 0)
  {
    var before := PendingIds(orders);
    var after := PendingIds(orders[k := o]);
    forall x | x in after && x != k ensures x in before {
    }
    forall x | x in before && x != k ensures x in after {
    }
    assert after - {k} == before - {k};
    CardWithout(before, k);
    CardWithout(after, k);
  }

  datatype Dashboard = Dashboard(productsCount: nat, ordersCount: nat, pendingOrders: nat, totalRevenue: Money)

  /** The four figures admin_dashboard returns. */
  ghost function AdminDashboard(t: Tables): (d: Dashboard)
    ensures d.pendingOrders <= d.ordersCount
  {
    Dashboard(|t.products|, |t.orders|, PendingCount(t.orders), PaidRevenue(t.orders))
  }

  /** A new order is pending and processing: it adds one order and one pending order and no revenue. */
  lemma CreateOrderDashboard(t: Tables, orderId: string, items: seq<CartItem>,
                             customer: CustomerInfo, shipping: ShippingAddress, now: Timestamp)
    requires orderId !in t.orders
    requires Ordering.CreateOrder(t.products, orderId, items, customer, shipping, now).Ok?
    ensures var o := Ordering.CreateOrder(t.products, orderId, items, customer, shipping, now).value;
            var d := AdminDashboard(t);
            AdminDashboard(t.(orders := t.orders[orderId := o]))
            == d.(ordersCount := d.ordersCount + 1, pendingOrders := d.pendingOrders + 1)
  {
    var o := Ordering.CreateOrder(t.products, orderId, items, customer, shipping, now).value;
    PaidRevenueReplace(t.orders, orderId, o);
    PendingCountReplace(t.orders, orderId, o);
  }

  /** An order status update never moves the revenue figure. */
  lemma StatusUpdateKeepsRevenue(orders: map<string, Order>, orderId: string, body: map<string, string>)
    requires Ordering.UpdateOrderStatus(orders, orderId, body).Ok?
    ensures PaidRevenue(Ordering.UpdateOrderStatus(orders, orderId, body).value) == PaidRevenue(orders)
  {
    var o := orders[orderId].(orderStatus := body["order_status"]);
    assert Ordering.UpdateOrderStatus(orders, orderId, body).value == orders[orderId := o];
    PaidRevenueReplace(orders, orderId, o);
  }

  /**
   * A "paid" poll on a linked order adds that order's total to the revenue
   * unless it was already paid, and takes it off the pending count if it was
   * still processing.
   */
  lemma PaidPollDashboard(t: Tables, sessionId: string)
    requires Payments.LinkedOrder(t, sessionId).Some?
    ensures var oid := Payments.LinkedOrder(t, sessionId).value;
            var before := AdminDashboard(t);
            var after := AdminDashboard(Payments.PollPayment(t, sessionId, PAID));
            && after.productsCount == before.productsCount
            && after.ordersCount == before.ordersCount
            && after.totalRevenue == before.totalRevenue + t.orders[oid].totalAmount - Revenue(t.orders[oid])
            && after.pendingOrders == before.pendingOrders - (if t.orders[oid].orderStatus == PROCESSING then 1 else 0)
  {
    var oid := Payments.LinkedOrder(t, sessionId).value;
    var after := Payments.PollPayment(t, sessionId, PAID);
    assert after.products.Keys == t.products.Keys;
    assert after.orders.Keys == t.orders.Keys;
    PaidRevenueReplace(t.orders, oid, Payments.ConfirmOrder(t.orders[oid]));
    PendingCountReplace(t.orders, oid, Payments.ConfirmOrder(t.orders[oid]));
  }
}
