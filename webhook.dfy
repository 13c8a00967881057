/**
 * The webhook handler of src/app/api/webhooks/polar/route.ts as it runs:
 * `BillingStore` is the billing database the handler writes through, one
 * method per branch's store work (the order branch's method runs the
 * subscription lookup and then the insert), and `OnPayload` is the
 * handler itself, a switch on the event type inside a catch-all.
 * Every method is proved against the functions of module `Reconcile`, so the
 * properties proved about those functions hold of the running handler.
 */
module Webhook {
  import opened Wrappers
  import opened Schema
  import opened Events
  import Reconcile
  import Properties

  class BillingStore {
    var products: seq<Product>
    var subscriptions: seq<Subscription>
    var payments: seq<Payment>
    /** The next value of the `subscriptions.id` serial sequence. */
    var nextSubscriptionId: int
    /** The next value of the `payments.id` serial sequence. */
    var nextPaymentId: int

    /** The three tables and the two sequences, as one value. */
    function State(): Tables
      reads this
    {
      Tables(products, subscriptions, payments, nextSubscriptionId, nextPaymentId)
    }

    /** The constraints the schema declares hold of the stored rows. */
    ghost predicate Valid()
      reads this
    {
      Schema.Valid(State())
    }

    /** A database holding a product catalog and no subscriptions or payments yet. */
    constructor(catalog: seq<Product>)
      requires ProductsValid(catalog)
      ensures State() == Fresh(catalog)
      ensures Valid()
    {
      products := catalog;
      subscriptions := [];
      payments := [];
      nextSubscriptionId := 1;
      nextPaymentId := 1;
      FreshIsValid(catalog);
    }

    /**
     * `insert into subscriptions ... on conflict (polar_subscription_id) do update set ...`;
     * statement by statement what `Reconcile.UpsertSubscription` computes.
     */
    method UpsertSubscription(sub: SubscriptionData, now: Time) returns (err: Option<Reconcile.StoreError>)
      requires Valid()
      modifies this
      ensures Valid()
      ensures Reconcile.Applied(old(State()), Reconcile.UpsertSubscription(old(State()), sub, now), err, State())
    {
      Properties.UpsertKeepsValid(State(), sub, now);
      var v := Reconcile.UpsertValues(sub);
      if !SubscriptionValuesFit(v) {
        return Some(Reconcile.ValueRejected);
      }
      if !IsInt4(nextSubscriptionId) {
        return Some(Reconcile.SequenceExhausted);
      }
      var conflict := FindSubscription(subscriptions, sub.id);
      if conflict.Some? {
        var i := conflict.value;
        subscriptions := subscriptions[i := Reconcile.ConflictUpdate(subscriptions[i], sub, now)];
        return None;
      }
      if !HasProduct(products, sub.productId) {
        return Some(Reconcile.ForeignKeyViolation);
      }
      subscriptions := subscriptions + [NewSubscription(nextSubscriptionId, v, now)];
      nextSubscriptionId := nextSubscriptionId + 1;
      return None;
    }

    /** `update subscriptions set status = 'canceled', ...`, as `Reconcile.CancelSubscription` computes it. */
    method CancelSubscription(key: string, now: Time)
      requires Valid()
      modifies this
      ensures Valid()
      ensures State() == Reconcile.CancelSubscription(old(State()), key, now)
    {
      Properties.CancelKeepsValid(State(), key, now);
      var target := FindSubscription(subscriptions, key);
      if target.Some? {
        var i := target.value;
        subscriptions := subscriptions[i := subscriptions[i].(status := "canceled",
                                                              cancelAtPeriodEnd := Some(true),
                                                              updatedAt := Some(now))];
      }
    }

    /** `update subscriptions set status = 'revoked', ...`, as `Reconcile.RevokeSubscription` computes it. */
    method RevokeSubscription(key: string, now: Time)
      requires Valid()
      modifies this
      ensures Valid()
      ensures State() == Reconcile.RevokeSubscription(old(State()), key, now)
    {
      Properties.RevokeKeepsValid(State(), key, now);
      var target := FindSubscription(subscriptions, key);
      if target.Some? {
        var i := target.value;
        subscriptions := subscriptions[i := subscriptions[i].(status := "revoked", updatedAt := Some(now))];
      }
    }

    /**
     * The order branch: look up the internal id of the order's subscription
     * when the order names one, then `insert into payments values (...)`;
     * statement by statement what `Reconcile.RecordPayment` computes.
     */
    method RecordPayment(order: OrderData, now: Time) returns (err: Option<Reconcile.StoreError>)
      requires Valid()
      modifies this
      ensures Valid()
      ensures Reconcile.Applied(old(State()), Reconcile.RecordPayment(old(State()), order, now), err, State())
    {
      Properties.RecordKeepsValid(State(), order, now);
      var subscriptionId: Option<int> := None;
      if order.subscriptionId.Some? && order.subscriptionId.value != "" {
        var found := FindSubscription(subscriptions, order.subscriptionId.value);
        if found.Some? {
          subscriptionId := Some(subscriptions[found.value].id);
        }
      }
      var v := PaymentValues(order.customerId, subscriptionId, order.amountSubtotalCents,
                             order.status, order.id);
      assert v == Reconcile.PaymentValuesFor(subscriptions, order);
      if !PaymentValuesFit(v) {
        return Some(Reconcile.ValueRejected);
      }
      if !IsInt4(nextPaymentId) {
        return Some(Reconcile.SequenceExhausted);
      }
      if FindPayment(payments, order.id).Some? {
        return Some(Reconcile.UniqueViolation);
      }
      if subscriptionId.Some? && !HasSubscription(subscriptions, subscriptionId.value) {
        return Some(Reconcile.ForeignKeyViolation);
      }
      payments := payments + [NewPayment(nextPaymentId, v, now)];
      nextPaymentId := nextPaymentId + 1;
      return None;
    }

    /** `update payments set status = 'refunded', ...`, as `Reconcile.RefundPayment` computes it. */
    method RefundPayment(key: string, now: Time)
      requires Valid()
      modifies this
      ensures Valid()
      ensures State() == Reconcile.RefundPayment(old(State()), key, now)
    {
      Properties.RefundKeepsValid(State(), key, now);
      var target := FindPayment(payments, key);
      if target.Some? {
        var i := target.value;
        payments := payments[i := payments[i].(status := "refunded", updatedAt := Some(now))];
      }
    }

    /**
     * `onPayload`: dispatch on the event type; a failed statement is caught
     * and logged, and the tables are left as they were. `fault` says the
     * database fails the branch's first statement; `logged` is the error the
     * catch-all logs, if any. The switch mirrors `Reconcile.Dispatch`.
     */
    method OnPayload(p: Payload, now: Time, fault: bool) returns (logged: Option<Reconcile.StoreError>)
      requires Valid()
      modifies this
      ensures Valid()
      ensures State() == Reconcile.OnPayload(old(State()), p, now, fault)
      ensures logged.None? <==> Reconcile.Dispatch(old(State()), p, now, fault).Ok?
    {
      logged := None;
      match HandlerFor(p.eventType)
      case LogOnly =>
      case SubscriptionUpsert =>
        if p.subscription.Some? {
          if fault {
            logged := Some(Reconcile.Unavailable);
          } else {
            logged := UpsertSubscription(p.subscription.value, now);
          }
        }
      case SubscriptionCancel =>
        if p.subscription.Some? {
          if fault {
            logged := Some(Reconcile.Unavailable);
          } else {
            CancelSubscription(p.subscription.value.id, now);
          }
        }
      case SubscriptionRevoke =>
        if p.subscription.Some? {
          if fault {
            logged := Some(Reconcile.Unavailable);
          } else {
            RevokeSubscription(p.subscription.value.id, now);
          }
        }
      case OrderRecord =>
        if p.order.Some? {
          if fault {
            logged := Some(Reconcile.Unavailable);
          } else {
            logged := RecordPayment(p.order.value, now);
          }
        }
      case OrderRefund =>
        if p.order.Some? {
          if fault {
            logged := Some(Reconcile.Unavailable);
          } else {
            RefundPayment(p.order.value.id, now);
          }
        }
    }
  }
}
