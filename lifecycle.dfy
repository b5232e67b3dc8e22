/**
 * How the two plugins meet: the checkout request the orders plugin builds
 * carries the order id that the webhook of the users plugin later reads
 * back, and neither side looks at the status the other wrote.
 */
module Lifecycle {
  import opened Wrappers
  import opened Text
  import opened Entities
  import opened Orders
  import opened Payments

  /**
   * The completion event for a checkout the orders plugin built: its
   * `data.object.metadata.order_id` is the one in the request.
   */
  function CompletionOf(req: CheckoutRequest, sessionId: Option<string>, flags: AccountFlags): (e: Event)
    ensures e.eventType == CHECKOUT_COMPLETED && e.dataObject.Some?
    ensures ORDER_ID_KEY in req.metadata ==> e.dataObject.value.metadataOrderId == Some(req.metadata[ORDER_ID_KEY])
  {
    var orderId := if ORDER_ID_KEY in req.metadata then Some(req.metadata[ORDER_ID_KEY]) else None;
    Event(CHECKOUT_COMPLETED, Some(EventObject(sessionId, orderId, flags)))
  }

  /**
   * Paying closes the loop: once the checkout built for an order completes,
   * the webhook marks exactly that order paid and touches no other order
   * and no user.
   */
  lemma CompletedCheckoutPaysItsOrder(
    orders: map<int, Order>, users: map<int, User>, orderId: int,
    title: string, quantity: int, days: int, priceCentsPerDay: int,
    customerEmail: string, customerId: Option<string>,
    successUrl: string, cancelUrl: string, customerIdParses: string -> bool,
    sessionId: Option<string>, flags: AccountFlags)
    requires InI64(orderId) && orderId in orders
    ensures var req := BuildCheckout(title, quantity, days, priceCentsPerDay, customerEmail,
                                     customerId, orderId, successUrl, cancelUrl, customerIdParses);
      var e := CompletionOf(req, sessionId, flags);
      && PaidOrderId(e) == Some(orderId)
      && WebhookOrders(orders, e)[orderId] == orders[orderId].(status := Paid)
      && (forall k :: k in orders && k != orderId ==> WebhookOrders(orders, e)[k] == orders[k])
      && WebhookUsers(users, e) == users
  {
    var req := BuildCheckout(title, quantity, days, priceCentsPerDay, customerEmail,
                             customerId, orderId, successUrl, cancelUrl, customerIdParses);
    var e := CompletionOf(req, sessionId, flags);
    CheckoutCarriesOrderId(title, quantity, days, priceCentsPerDay, customerEmail,
                           customerId, orderId, successUrl, cancelUrl, customerIdParses);
    CheckoutCompletedPaysOrder(orders, users, e, orderId);
  }

  /**
   * No status guard on either side: a cancelled order whose checkout then
   * completes ends up paid, and a paid order that is then cancelled ends
   * up cancelled. The final status is the one written last.
   */
  lemma LastWriterDecidesStatus(orders: map<int, Order>, users: map<int, User>, id: int)
    requires InI64(id) && id in orders
    ensures var e := Event(CHECKOUT_COMPLETED, Some(EventObject(None, Some(IntToString(id)), AccountFlags(None, None, None))));
      && WebhookOrders(SetStatus(orders, id, Cancelled), e)[id].status == Paid
      && SetStatus(WebhookOrders(orders, e), id, Cancelled)[id].status == Cancelled
  {
    var e := Event(CHECKOUT_COMPLETED, Some(EventObject(None, Some(IntToString(id)), AccountFlags(None, None, None))));
    CheckoutCompletedPaysOrder(SetStatus(orders, id, Cancelled), users, e, id);
    CheckoutCompletedPaysOrder(orders, users, e, id);
  }
}
