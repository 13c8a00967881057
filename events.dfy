/**
 * A verified Polar webhook event, as the handler of
 * src/app/api/webhooks/polar/route.ts receives it: the `type` string and the
 * two parts of `data` the handler reads. The switch on `type` picks one of
 * five reconciliation handlers, or none.
 */
module Events {
  import opened Wrappers
  import opened Schema

  /** `data.subscription`: the fields the subscription branches read. */
  datatype SubscriptionData = SubscriptionData(
    id: string,
    customerId: string,
    productId: int,
    status: string,
    currentPeriodStart: Time,
    currentPeriodEnd: Time,
    cancelAtPeriodEnd: bool)

  /** `data.order`: the fields the order branches read. */
  datatype OrderData = OrderData(
    id: string,
    customerId: string,
    subscriptionId: Option<string>,
    amountSubtotalCents: int,
    status: string)

  /** An event; an absent `data.subscription` or `data.order` is `None`. */
  datatype Payload = Payload(
    eventType: string,
    subscription: Option<SubscriptionData>,
    order: Option<OrderData>)

  /** The store mutation an event type selects. */
  datatype Handler =
    | SubscriptionUpsert
    | SubscriptionCancel
    | SubscriptionRevoke
    | OrderRecord
    | OrderRefund
    | LogOnly

  /** The `switch (payload.type)` of the handler: only the mutating types reach the store. */
  function HandlerFor(eventType: string): (h: Handler)
    ensures h == LogOnly <==> eventType !in MutatingTypes
  {
    match eventType
    case "checkout.created" => LogOnly
    case "checkout.updated" => LogOnly
    case "customer.created" => LogOnly
    case "customer.updated" => LogOnly
    case "subscription.created" => SubscriptionUpsert
    case "subscription.updated" => SubscriptionUpsert
    case "subscription.active" => SubscriptionUpsert
    case "subscription.uncanceled" => SubscriptionUpsert
    case "order.created" => OrderRecord
    case "order.paid" => OrderRecord
    case "order.refunded" => OrderRefund
    case "subscription.canceled" => SubscriptionCancel
    case "subscription.revoked" => SubscriptionRevoke
    case "product.created" => LogOnly
    case "product.updated" => LogOnly
    case "benefit.created" => LogOnly
    case "benefit.updated" => LogOnly
    case _ => LogOnly
  }

  /** The event types that reach a store mutation. */
  const UpsertTypes: set<string> :=
    {"subscription.created", "subscription.updated", "subscription.active", "subscription.uncanceled"}
  const OrderTypes: set<string> := {"order.created", "order.paid"}
  const SubscriptionTypes: set<string> := UpsertTypes + {"subscription.canceled", "subscription.revoked"}
  const OrderFamilyTypes: set<string> := OrderTypes + {"order.refunded"}
  const MutatingTypes: set<string> := SubscriptionTypes + OrderFamilyTypes

  /** Each store mutation is selected by exactly its event types. */
  lemma HandlerForSelectsByType(eventType: string)
    ensures HandlerFor(eventType) == SubscriptionUpsert <==> eventType in UpsertTypes
    ensures HandlerFor(eventType) == OrderRecord <==> eventType in OrderTypes
    ensures HandlerFor(eventType) == OrderRefund <==> eventType == "order.refunded"
    ensures HandlerFor(eventType) == SubscriptionCancel <==> eventType == "subscription.canceled"
    ensures HandlerFor(eventType) == SubscriptionRevoke <==> eventType == "subscription.revoked"
  {
  }
}
