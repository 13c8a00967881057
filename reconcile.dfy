/**
 * What one webhook delivery does to the billing database
 * (src/app/api/webhooks/polar/route.ts, `onPayload`), as functions from the
 * tables before to the tables after. Each branch of the event switch is one
 * function; a statement the database rejects is an `Err`, and the handler's
 * catch-all turns every `Err` into "nothing changed".
 */
module Reconcile {
  import opened Wrappers
  import opened Schema
  import opened Events

  /** Why the database refused a statement. */
  datatype StoreError =
    | ValueRejected       // a value too long for its varchar or outside integer range
    | SequenceExhausted   // the serial id sequence passed the integer range
    | UniqueViolation     // a provider key already stored
    | ForeignKeyViolation // a reference to a row that does not exist
    | Unavailable         // the database failed for reasons outside the model

  datatype Result<T> = Ok(value: T) | Err(error: StoreError)

  /** Whether a statement's method left the tables as `r` says, and reported its error. */
  predicate Applied(before: Tables, r: Result<Tables>, err: Option<StoreError>, after: Tables) {
    match r
    case Ok(t) => err.None? && after == t
    case Err(e) => err == Some(e) && after == before
  }

  /**
   * No subscription row is deleted: every row before is still in its place
   * afterwards, with its serial id and provider key.
   */
  predicate SubscriptionRowsKept(subs: seq<Subscription>, subs': seq<Subscription>) {
    && |subs| <= |subs'|
    && forall j :: 0 <= j < |subs| ==>
         subs'[j].id == subs[j].id && subs'[j].polarSubscriptionId == subs[j].polarSubscriptionId
  }

  /** No payment row is deleted: every row keeps its place, serial id and provider key. */
  predicate PaymentRowsKept(pays: seq<Payment>, pays': seq<Payment>) {
    && |pays| <= |pays'|
    && forall j :: 0 <= j < |pays| ==>
         pays'[j].id == pays[j].id && pays'[j].polarPaymentId == pays[j].polarPaymentId
  }

  // ----------------------------------------------------- subscriptions

  /**
   * Every row keeps its place, its serial id, its provider key and its
   * product reference: what an `update ... set` of other columns guarantees.
   */
  predicate KeysKept(subs: seq<Subscription>, subs': seq<Subscription>) {
    && |subs'| == |subs|
    && forall j :: 0 <= j < |subs| ==>
         && subs'[j].id == subs[j].id
         && subs'[j].polarSubscriptionId == subs[j].polarSubscriptionId
         && subs'[j].productId == subs[j].productId
  }

  /** The `.values({...})` of the subscription upsert: the owner is the customer. */
  function UpsertValues(sub: SubscriptionData): SubscriptionValues {
    SubscriptionValues(sub.customerId, Some(sub.productId), sub.status,
                       Some(sub.currentPeriodStart), Some(sub.currentPeriodEnd),
                       Some(sub.cancelAtPeriodEnd), sub.id, sub.customerId)
  }

  /** The `onConflictDoUpdate` set clause, applied to the row already stored. */
  function ConflictUpdate(row: Subscription, sub: SubscriptionData, now: Time): Subscription {
    row.(status := sub.status,
         currentPeriodStart := Some(sub.currentPeriodStart),
         currentPeriodEnd := Some(sub.currentPeriodEnd),
         cancelAtPeriodEnd := Some(sub.cancelAtPeriodEnd),
         updatedAt := Some(now))
  }

  /**
   * `insert into subscriptions ... on conflict (polar_subscription_id) do update`.
   * The proposed row is built (values checked, a serial id drawn) before the
   * conflict is looked for; the product reference is checked only when a row
   * is inserted, since the update leaves `product_id` alone.
   */
  function UpsertSubscription(t: Tables, sub: SubscriptionData, now: Time): (r: Result<Tables>)
    ensures r.Ok? <==> UpsertAccepted(t, sub)
    ensures r.Ok? ==> && r.value.products == t.products && r.value.payments == t.payments
                      && r.value.nextPaymentId == t.nextPaymentId
                      && SubscriptionRowsKept(t.subscriptions, r.value.subscriptions)
                      && FindSubscription(r.value.subscriptions, sub.id).Some?
  {
    var v := UpsertValues(sub);
    if !SubscriptionValuesFit(v) then Err(ValueRejected)
    else if !IsInt4(t.nextSubscriptionId) then Err(SequenceExhausted)
    else match FindSubscription(t.subscriptions, sub.id)
      case Some(i) =>
        var subs' := t.subscriptions[i := ConflictUpdate(t.subscriptions[i], sub, now)];
        assert subs'[i].polarSubscriptionId == sub.id;
        Ok(t.(subscriptions := subs'))
      case None =>
        if !HasProduct(t.products, sub.productId) then Err(ForeignKeyViolation)
        else
          var subs' := t.subscriptions + [NewSubscription(t.nextSubscriptionId, v, now)];
          assert subs'[|t.subscriptions|].polarSubscriptionId == sub.id;
          Ok(t.(subscriptions := subs', nextSubscriptionId := t.nextSubscriptionId + 1))
  }

  /** Whether the database accepts the upsert of `sub`. */
  predicate UpsertAccepted(t: Tables, sub: SubscriptionData) {
    && SubscriptionValuesFit(UpsertValues(sub))
    && IsInt4(t.nextSubscriptionId)
    && (FindSubscription(t.subscriptions, sub.id).Some? || HasProduct(t.products, sub.productId))
  }

  /** `update subscriptions set status = 'canceled', cancel_at_period_end = true where ...`. */
  function CancelSubscription(t: Tables, key: string, now: Time): (r: Tables)
    ensures r.products == t.products && r.payments == t.payments
    ensures r.nextSubscriptionId == t.nextSubscriptionId && r.nextPaymentId == t.nextPaymentId
    ensures KeysKept(t.subscriptions, r.subscriptions)
    ensures FindSubscription(t.subscriptions, key).None? ==> r == t
  {
    match FindSubscription(t.subscriptions, key)
    case Some(i) =>
      t.(subscriptions := t.subscriptions[i := t.subscriptions[i].(status := "canceled",
                                                                   cancelAtPeriodEnd := Some(true),
                                                                   updatedAt := Some(now))])
    case None => t
  }

  /** `update subscriptions set status = 'revoked' where ...`. */
  function RevokeSubscription(t: Tables, key: string, now: Time): (r: Tables)
    ensures r.products == t.products && r.payments == t.payments
    ensures r.nextSubscriptionId == t.nextSubscriptionId && r.nextPaymentId == t.nextPaymentId
    ensures KeysKept(t.subscriptions, r.subscriptions)
    ensures FindSubscription(t.subscriptions, key).None? ==> r == t
  {
    match FindSubscription(t.subscriptions, key)
    case Some(i) =>
      t.(subscriptions := t.subscriptions[i := t.subscriptions[i].(status := "revoked",
                                                                   updatedAt := Some(now))])
    case None => t
  }

  // ---------------------------------------------------------- payments

  /**
   * The internal id of the subscription an order belongs to: looked up only
   * when the order's `subscription_id` is truthy (present and non-empty),
   * and null when no stored subscription carries it.
   */
  function LinkedSubscription(subs: seq<Subscription>, order: OrderData): (r: Option<int>)
    ensures r.Some? ==> HasSubscription(subs, r.value)
    ensures r.Some? ==> order.subscriptionId.Some? && order.subscriptionId.value != ""
  {
    if order.subscriptionId.Some? && order.subscriptionId.value != "" then
      match FindSubscription(subs, order.subscriptionId.value)
      case Some(k) => Some(subs[k].id)
      case None => None
    else None
  }

  /** The `.values({...})` of the payment insert. */
  function PaymentValuesFor(subs: seq<Subscription>, order: OrderData): PaymentValues {
    PaymentValues(order.customerId, LinkedSubscription(subs, order), order.amountSubtotalCents,
                  order.status, order.id)
  }

  /** `insert into payments values (...)`, with no conflict clause. */
  function RecordPayment(t: Tables, order: OrderData, now: Time): (r: Result<Tables>)
    ensures FindPayment(t.payments, order.id).Some? ==> r.Err?
    ensures r.Ok? ==> && r.value.products == t.products && r.value.subscriptions == t.subscriptions
                      && r.value.nextSubscriptionId == t.nextSubscriptionId
                      && |r.value.payments| == |t.payments| + 1
                      && r.value.payments[..|t.payments|] == t.payments
                      && r.value.payments[|t.payments|].polarPaymentId == order.id
  {
    var v := PaymentValuesFor(t.subscriptions, order);
    if !PaymentValuesFit(v) then Err(ValueRejected)
    else if !IsInt4(t.nextPaymentId) then Err(SequenceExhausted)
    else if FindPayment(t.payments, order.id).Some? then Err(UniqueViolation)
    else if v.subscriptionId.Some? && !HasSubscription(t.subscriptions, v.subscriptionId.value) then Err(ForeignKeyViolation)
    else Ok(t.(payments := t.payments + [NewPayment(t.nextPaymentId, v, now)],
               nextPaymentId := t.nextPaymentId + 1))
  }

  /** `update payments set status = 'refunded' where polar_payment_id = ...`. */
  function RefundPayment(t: Tables, key: string, now: Time): (r: Tables)
    ensures r.products == t.products && r.subscriptions == t.subscriptions
    ensures r.nextSubscriptionId == t.nextSubscriptionId && r.nextPaymentId == t.nextPaymentId
    ensures |r.payments| == |t.payments|
    ensures forall j :: 0 <= j < |t.payments| ==>
              && r.payments[j].id == t.payments[j].id
              && r.payments[j].polarPaymentId == t.payments[j].polarPaymentId
              && r.payments[j].subscriptionId == t.payments[j].subscriptionId
    ensures FindPayment(t.payments, key).None? ==> r == t
  {
    match FindPayment(t.payments, key)
    case Some(i) =>
      t.(payments := t.payments[i := t.payments[i].(status := "refunded", updatedAt := Some(now))])
    case None => t
  }

  // ------------------------------------------------------ the handler

  /**
   * The body of the `try`: the branch the event type selects, skipped when
   * the payload part it needs is absent. When `fault` holds, the database
   * fails the branch's first statement.
   */
  function Dispatch(t: Tables, p: Payload, now: Time, fault: bool): (r: Result<Tables>)
    ensures fault ==> r == Ok(t) || r == Err(Unavailable)
    ensures r.Ok? ==> r.value.products == t.products
    ensures r.Ok? ==> && SubscriptionRowsKept(t.subscriptions, r.value.subscriptions)
                      && PaymentRowsKept(t.payments, r.value.payments)
  {
    match HandlerFor(p.eventType)
    case LogOnly => Ok(t)
    case SubscriptionUpsert =>
      if p.subscription.None? then Ok(t)
      else if fault then Err(Unavailable)
      else UpsertSubscription(t, p.subscription.value, now)
    case SubscriptionCancel =>
      if p.subscription.None? then Ok(t)
      else if fault then Err(Unavailable)
      else Ok(CancelSubscription(t, p.subscription.value.id, now))
    case SubscriptionRevoke =>
      if p.subscription.None? then Ok(t)
      else if fault then Err(Unavailable)
      else Ok(RevokeSubscription(t, p.subscription.value.id, now))
    case OrderRecord =>
      if p.order.None? then Ok(t)
      else if fault then Err(Unavailable)
      else RecordPayment(t, p.order.value, now)
    case OrderRefund =>
      if p.order.None? then Ok(t)
      else if fault then Err(Unavailable)
      else Ok(RefundPayment(t, p.order.value.id, now))
  }

  /** `onPayload`: the catch-all swallows every error, leaving the tables as they were. */
  function OnPayload(t: Tables, p: Payload, now: Time, fault: bool): (r: Tables)
    ensures r.products == t.products
    ensures SubscriptionRowsKept(t.subscriptions, r.subscriptions)
    ensures PaymentRowsKept(t.payments, r.payments)
  {
    match Dispatch(t, p, now, fault)
    case Ok(t') => t'
    case Err(_) => t
  }
}
