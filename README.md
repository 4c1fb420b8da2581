# Storefront backend bookkeeping, in Dafny

A model of the bookkeeping core of the storefront's REST backend
(`backend/server.py`): the product catalogue, order creation, the admin's
order status update, the payment records kept beside the hosted payment
provider, and the admin dashboard aggregates. The backend's three MongoDB
collections (`products`, `orders`, `payment_transactions`) become three
maps. Each endpoint that writes to the collections becomes a specification
function over those maps and a method of the class `Storefront.Store` that
updates them in place and is proved to agree with that function. The admin
login and the dashboard only read: they are functions (the login reads no
collection at all).

Modules:

- `Records` (`records.dfy`): the records (`Product`, `Order`, `OrderLine`,
  `PaymentTransaction`, the request bodies), the errors the endpoints raise
  with their HTTP status codes, and the status strings.
- `Catalog` (`catalog.dfy`): product creation, the partial update that
  ignores absent fields, deletion.
- `Ordering` (`ordering.dfy`): the validate-and-price fold of order creation
  and the order status update.
- `Payments` (`payments.dfy`): checkout session records, payment status
  reconciliation (inventory decrement), the webhook.
- `Admin` (`admin.dfy`): the fixed-password login and the dashboard counts
  and paid-revenue sum.
- `Storefront` (`store.dfy`): the class `Store` holding the three tables,
  with one method per endpoint; the order-pricing and inventory loops are
  written as loops with invariants.

Modelling choices:

- Money is an integer number of cents (`Records.Money`), not a float.
- Ids (uuid4) and timestamps (`datetime.utcnow`) are inputs; fresh ids are
  a precondition of the methods that insert records.
- The payment transaction table is keyed by checkout session id. Every
  modelled access to it is by `session_id`, and the provider issues each
  session id once.
- The payment provider is not modelled. The status it reports, the session
  id it issues and the webhook event it decodes are parameters.
- Request fields that Python tests with `if not value` (`order_status`,
  `order_id`, `origin_url`) count as absent when missing or empty
  (`Records.Field`).
- Stock is checked when an order is created but is not reserved, and the
  payment poll subtracts with no floor at zero. The model therefore allows
  overselling one request at a time: two orders that each fit the stock are
  both accepted, and paying for both drives the stock negative
  (`Payments.TwoPaidOrdersTakeBoth`, `Payments.UnreservedStockOversold`).

## Model

| member | source | states |
|---|---|---|
| Records.StatusCode | backend/server.py:145-397 | not-found errors are reported as 404, the wrong admin password as 401, and every other raised error (missing field, short stock, rejected webhook) as 400 |
| Records.Field | backend/server.py:242-243 | a body field counts as given iff its key is present with a non-empty value, as Python's `if not value` reads it |
| Catalog.NewProduct | backend/server.py:115-122 | the stored product carries the request's name, description, price and image, the given id and creation time, and inventory 0 when the request gives none |
| Catalog.MergeUpdate | backend/server.py:148-151 | every field given a non-None value is overwritten with it; every other field, and the id and creation time, keep their value |
| Catalog.MergeNoChanges | backend/server.py:149-151 | an update giving no field leaves the product identical |
| Catalog.MergeIdempotent | backend/server.py:148-151 | applying the same update twice equals applying it once |
| Catalog.MergeSequential | backend/server.py:148-151 | two updates in a row equal one update whose fields are the later one's where both give a field |
| Catalog.UpdateProduct | backend/server.py:139-155 | 404 exactly when the id is unknown; otherwise the returned product is the merge of the stored one with the update |
| Catalog.UpdatedTable | backend/server.py:144-151 | after the update the table has the same ids, the named product is merged and every other product is unchanged |
| Catalog.UpdateIdempotent | backend/server.py:139-155 | repeating an update request leaves the table as the first request left it |
| Catalog.DeleteProduct | backend/server.py:161-168 | 404 exactly when the id is unknown; otherwise exactly that product is removed and every other product is unchanged |
| Ordering.PriceItem | backend/server.py:184-200 | one item passes iff its product exists and has at least the quantity in stock; otherwise its error is not-found or insufficient inventory; a passing item is priced from the product as it is now |
| Ordering.PriceItems | backend/server.py:180-200 | on success there is one line per requested item, in input order, each with the product's current name and price, the quantity and total price times quantity |
| Ordering.PriceItemsSucceedsIff | backend/server.py:183-189 | the request succeeds iff every item on its own names an existing product with inventory at least its quantity (equal to stock is accepted) |
| Ordering.PriceItemsFirstFailure | backend/server.py:183-189 | when item i is the first failing item, the request fails with i's error: not-found if its product is missing, else insufficient inventory |
| Ordering.FailureIsFinal | backend/server.py:183-189 | once a prefix of the items fails, later items cannot change the outcome |
| Ordering.FirstFailureExists | backend/server.py:183-189 | every failing request has a first failing item, and the error is that item's |
| Ordering.OrderTotalConcat | backend/server.py:180-192 | the stored total_amount is additive over runs of lines: the total of two runs is the sum of their totals |
| Ordering.OrderTotalNonNegative | backend/server.py:180-205 | with no negative line total, the stored total_amount is not negative |
| Ordering.TotalIsItemsCost | backend/server.py:191-192 | the running total equals the sum of price times quantity over the requested items |
| Ordering.DuplicateLinesNotPooled | backend/server.py:188 | two lines for the same product, of any quantities, are each checked against the full stock, not against their sum |
| Ordering.CreateOrder | backend/server.py:175-209 | fails iff some item fails, with the first failing item's error; on success the order has the given id, the priced lines, total equal to the items' cost, payment status pending, order status processing and no session id |
| Ordering.UpdateOrderStatus | backend/server.py:237-253 | a missing or empty order_status gives 400 before any lookup; an unknown order gives 404; otherwise only that order's order_status changes |
| Payments.DecrementLine | backend/server.py:354-357 | one `$inc`: the line's product, if it exists, loses the line's quantity and nothing else of it changes; every other product is unchanged and no product is created |
| Payments.Decrement | backend/server.py:353-357 | the inventory loop neither adds nor removes products: a line whose product was deleted is skipped, not recreated |
| Payments.DecrementEffect | backend/server.py:353-357 | each product's inventory drops by the total quantity the lines order of it, with no floor at zero, and no other field of it changes |
| Payments.DecrementTwice | backend/server.py:353-357 | running the inventory loop twice over the same lines takes twice the ordered quantity |
| Payments.RecordStatus | backend/server.py:332-335 | the session's transaction takes the reported status; every other transaction is unchanged |
| Payments.LinkedOrder | backend/server.py:340-352 | a session leads to an order iff its transaction exists, has a non-empty order_id and that order exists |
| Payments.ConfirmOrder | backend/server.py:345-348 | the order becomes paid and confirmed; its id, items, total, customer, address, session id and creation time are kept |
| Payments.PollPayment | backend/server.py:321-357 | the transaction always takes the reported status; only on "paid" with a linked order does the order become paid/confirmed and each product lose the ordered quantity; otherwise orders and products are unchanged |
| Payments.RepeatedPaidPollDecrementsAgain | backend/server.py:338-357 | a second "paid" poll for the same session takes the ordered quantities off the inventory again |
| Payments.RepeatedPaidPollExample | backend/server.py:338-357 | stock 5 and an order of 2: two "paid" polls leave 1 |
| Payments.PollPaymentOnce | backend/server.py:338-357 | guarded poll: an already paid order and the products are left alone; the transaction still takes the reported status |
| Payments.PollPaymentOnceAgrees | backend/server.py:338-357 | on an order not yet paid the guarded poll does exactly what the as-written poll does |
| Payments.PollPaymentOnceIdempotent | backend/server.py:338-357 | repeating a guarded poll with the same report changes nothing |
| Payments.GuardedPaidPollsDecrementOnce | backend/server.py:350-357 | two guarded "paid" polls take the ordered quantity off each product once |
| Payments.NewTransaction | backend/server.py:299-305 | the new transaction records the stored order's total, currency usd, status pending, the request's order_id and the metadata order_id/source "mobile_checkout", under the provider's session id |
| Payments.Checkout | backend/server.py:260-312 | 400 when order_id or origin_url is missing or empty, 404 for an unknown order; otherwise a new pending transaction is added, the order records the session id and nothing else changes |
| Payments.CheckoutThenPaidPoll | backend/server.py:299-357 | after a checkout, the session leads to the order the request named, so a "paid" poll on it confirms that order and records "paid" |
| Payments.TwoPaidOrdersTakeBoth | backend/server.py:338-357 | paying for two different orders takes both orders' quantities off each product, with nothing comparing the stock to what is sold |
| Payments.UnreservedStockOversold | backend/server.py:188 | stock 5 and two orders of 5: both orders are accepted, and after both are paid the stock is -5 |
| Payments.Webhook | backend/server.py:369-390 | a rejected event gives 400; a completed-checkout or succeeded-payment event sets its transaction's status; any other event changes nothing |
| Payments.WebhookLeavesPollEffect | backend/server.py:369-384 | a webhook never touches orders or stock, and a later poll changes them exactly as it would have without it |
| Admin.AdminLogin | backend/server.py:393-399 | succeeds, with the fixed token, iff the password is the configured one; otherwise 401 |
| Admin.PendingCount | backend/server.py:408 | the pending count is at most the number of orders |
| Admin.PaidRevenue | backend/server.py:414-419 | the total_revenue sum of total_amount over the paid orders is not negative when no order total is |
| Admin.PaidRevenueRemove | backend/server.py:414-419 | the revenue sum does not depend on the order in which orders are summed |
| Admin.NoPaidOrdersNoRevenue | backend/server.py:414-419 | with no paid order the revenue is 0 |
| Admin.PaidRevenueReplace | backend/server.py:414-419 | replacing one order changes the revenue by the difference of the two orders' paid totals |
| Admin.PendingCountReplace | backend/server.py:408 | replacing one order changes the pending count only by that order's change into or out of processing |
| Admin.AdminDashboard | backend/server.py:401-425 | the dashboard's pending count never exceeds its order count |
| Admin.CreateOrderDashboard | backend/server.py:406-419 | a new order adds one order and one pending order and no revenue |
| Admin.StatusUpdateKeepsRevenue | backend/server.py:414-419 | an order status update never changes the revenue |
| Admin.PaidPollDashboard | backend/server.py:338-348 | a "paid" poll adds the linked order's total to the revenue unless it was already paid, and removes it from the pending count if it was processing |
| Storefront.Store.CreateProduct | backend/server.py:115-122 | inserts the new product under its id; orders and transactions unchanged |
| Storefront.Store.UpdateProduct | backend/server.py:139-155 | returns the update's result; the table becomes the updated table; nothing is written when no field is given |
| Storefront.Store.DeleteProduct | backend/server.py:161-168 | 404 iff the id is unknown; otherwise the table loses exactly that product |
| Storefront.Store.PriceOrder | backend/server.py:180-200 | the loop's result is the fold's: the same first error, or the same lines and their total |
| Storefront.Store.CreateOrder | backend/server.py:175-209 | the order is stored only on success; the product table is unchanged, so no stock is reserved |
| Storefront.Store.UpdateOrderStatus | backend/server.py:237-253 | the table changes as the status update specifies, and not at all on either error |
| Storefront.Store.CreateCheckoutSession | backend/server.py:260-312 | the tables change as the checkout specifies, and not at all on either error |
| Storefront.Store.DeductInventory | backend/server.py:350-357 | the product table after the loop is the inventory decrement of the order's lines |
| Storefront.Store.GetPaymentStatus | backend/server.py:321-357 | the tables after the poll are the as-written poll's |
| Storefront.Store.GetPaymentStatusGuarded | backend/server.py:338-357 | the tables after the poll are the guarded poll's |
| Storefront.Store.StripeWebhook | backend/server.py:369-390 | the transaction table changes as the webhook specifies; orders and products are unchanged |

## Findings

| source | as written | input that shows it | evidently intended | confidence | as-written member | corrected member |
|---|---|---|---|---|---|---|
| backend/server.py:338-357 | every "paid" status poll marks the order paid and decrements the inventory of its products again; nothing checks whether the order was already paid, and the client polls the same session repeatedly | product stock 5, one order line of quantity 2, the status endpoint called twice with the provider reporting "paid": stock ends at 1, not 3 | the order's stock is taken once, when it first becomes paid | high that it happens, medium that it is unintended; not executed | Payments.RepeatedPaidPollDecrementsAgain | Payments.PollPaymentOnce |

`Storefront.Store.GetPaymentStatus` models the poll as written.
`Storefront.Store.GetPaymentStatusGuarded` uses the corrected definition.

## Left out

- backend/auth.py is not part of this model: JWT, password hashing and OTP are wrappers over libraries that cannot be seen.
- backend_test.py is not part of this model. It is a live HTTP harness, and it expects endpoints and 401/403 answers that the server does not implement.
- Floating-point prices and totals: money is integer cents, and rounding of `price * quantity` and of the running sum is not modelled.
- The payment provider: creating a session, retrieving its status, and decoding and checking the signature of a webhook. Their results are parameters. The poll's response body is the provider's figures passed through, so only the state effect is modelled.
- 500 responses from database or library exceptions, including malformed stored documents. The webhook reports every exception, database failures included, as 400; only the provider's rejection of the event is modelled as that 400.
- MongoDB specifics: `to_list(1000)` caps, the `_id` field, and documents that share a session id. Session ids are assumed unique, as the provider issues them.
- The five most recent orders on the dashboard and the `created_at` sort of GET /orders.
- Read-only endpoints (GET /products, /products/{id}, /orders, /orders/{id}): lookups with no bookkeeping.
- Concurrency between requests, such as racing polls or interleaved writes within one request. The model runs one request at a time.
- Request parsing and pydantic defaults other than product inventory, such as shipping country "US". The request records are taken as already parsed.
- Storefront.Store.CreateOrder, Storefront.Store.CreateProduct, Storefront.Store.CreateCheckoutSession: require fresh ids (order id, product id, provider session id) where the backend draws them from uuid4 or receives them from the provider.
