/**
 * What the webhook handler guarantees about the billing database: every
 * delivery keeps the schema's constraints, each branch changes exactly the
 * row and the columns it names, lookups that miss change nothing, and a
 * redelivered event changes nothing beyond `updated_at`.
 */
module Properties {
  import opened Wrappers
  import opened Schema
  import opened Events
  import opened Reconcile
  import Polar

  // ------------------------------------------- the schema's constraints

  /** Replacing a subscription by one with the same keys keeps every constraint. */
  lemma SubscriptionUpdateKeepsValid(t: Tables, i: nat, row: Subscription)
    requires Valid(t) && i < |t.subscriptions|
    requires row.id == t.subscriptions[i].id
    requires row.polarSubscriptionId == t.subscriptions[i].polarSubscriptionId
    requires row.productId == t.subscriptions[i].productId
    requires SubscriptionValuesFit(SubscriptionValuesOf(row))
    ensures Valid(t.(subscriptions := t.subscriptions[i := row]))
  {
    var subs' := t.subscriptions[i := row];
    forall k | 0 <= k < |t.payments| && t.payments[k].subscriptionId.Some?
      ensures HasSubscription(subs', t.payments[k].subscriptionId.value)
    {
      SubscriptionIdsKept(t.subscriptions, subs', t.payments[k].subscriptionId.value);
    }
  }

  /** Replacing a payment by one with the same keys keeps every constraint. */
  lemma PaymentUpdateKeepsValid(t: Tables, i: nat, row: Payment)
    requires Valid(t) && i < |t.payments|
    requires row.id == t.payments[i].id
    requires row.polarPaymentId == t.payments[i].polarPaymentId
    requires row.subscriptionId == t.payments[i].subscriptionId
    requires PaymentValuesFit(PaymentValuesOf(row))
    ensures Valid(t.(payments := t.payments[i := row]))
  {
  }

  lemma UpsertKeepsValid(t: Tables, sub: SubscriptionData, now: Time)
    requires Valid(t)
    ensures UpsertSubscription(t, sub, now).Ok? ==> Valid(UpsertSubscription(t, sub, now).value)
  {
    var v := UpsertValues(sub);
    if SubscriptionValuesFit(v) && IsInt4(t.nextSubscriptionId) {
      match FindSubscription(t.subscriptions, sub.id)
      case Some(i) =>
        var row := ConflictUpdate(t.subscriptions[i], sub, now);
        assert UpsertSubscription(t, sub, now) == Ok(t.(subscriptions := t.subscriptions[i := row]));
        SubscriptionUpdateKeepsValid(t, i, row);
      case None =>
        if HasProduct(t.products, sub.productId) {
          var subs' := t.subscriptions + [NewSubscription(t.nextSubscriptionId, v, now)];
          assert UpsertSubscription(t, sub, now)
              == Ok(t.(subscriptions := subs', nextSubscriptionId := t.nextSubscriptionId + 1));
          SubscriptionInsertKeepsValid(t, NewSubscription(t.nextSubscriptionId, v, now));
        }
    }
  }

  /** Appending a fitting row numbered by the sequence, with a new key and a stored product, keeps every constraint. */
  lemma SubscriptionInsertKeepsValid(t: Tables, row: Subscription)
    requires Valid(t) && IsInt4(t.nextSubscriptionId) && row.id == t.nextSubscriptionId
    requires forall k :: 0 <= k < |t.subscriptions| ==> t.subscriptions[k].polarSubscriptionId != row.polarSubscriptionId
    requires SubscriptionValuesFit(SubscriptionValuesOf(row))
    requires row.productId.Some? && HasProduct(t.products, row.productId.value)
    ensures Valid(t.(subscriptions := t.subscriptions + [row], nextSubscriptionId := t.nextSubscriptionId + 1))
  {
    var subs' := t.subscriptions + [row];
    forall k | 0 <= k < |t.payments| && t.payments[k].subscriptionId.Some?
      ensures HasSubscription(subs', t.payments[k].subscriptionId.value)
    {
      SubscriptionIdsKept(t.subscriptions, subs', t.payments[k].subscriptionId.value);
    }
  }

  lemma CancelKeepsValid(t: Tables, key: string, now: Time)
    requires Valid(t)
    ensures Valid(CancelSubscription(t, key, now))
  {
    match FindSubscription(t.subscriptions, key)
    case Some(i) =>
      var row := t.subscriptions[i].(status := "canceled", cancelAtPeriodEnd := Some(true), updatedAt := Some(now));
      assert |row.status| == 8;
      SubscriptionUpdateKeepsValid(t, i, row);
    case None =>
  }

  lemma RevokeKeepsValid(t: Tables, key: string, now: Time)
    requires Valid(t)
    ensures Valid(RevokeSubscription(t, key, now))
  {
    match FindSubscription(t.subscriptions, key)
    case Some(i) =>
      var row := t.subscriptions[i].(status := "revoked", updatedAt := Some(now));
      assert |row.status| == 7;
      SubscriptionUpdateKeepsValid(t, i, row);
    case None =>
  }

  lemma RecordKeepsValid(t: Tables, order: OrderData, now: Time)
    requires Valid(t)
    ensures RecordPayment(t, order, now).Ok? ==> Valid(RecordPayment(t, order, now).value)
  {
  }

  lemma RefundKeepsValid(t: Tables, key: string, now: Time)
    requires Valid(t)
    ensures Valid(RefundPayment(t, key, now))
  {
    match FindPayment(t.payments, key)
    case Some(i) =>
      var row := t.payments[i].(status := "refunded", updatedAt := Some(now));
      assert |row.status| == 8;
      PaymentUpdateKeepsValid(t, i, row);
    case None =>
  }

  /**
   * Every delivery, whatever its type and whether or not the database fails,
   * leaves the tables satisfying the schema: unique provider keys, serial ids,
   * column types, and references that resolve.
   */
  lemma OnPayloadKeepsValid(t: Tables, p: Payload, now: Time, fault: bool)
    requires Valid(t)
    ensures Valid(OnPayload(t, p, now, fault))
  {
    match HandlerFor(p.eventType)
    case LogOnly =>
    case SubscriptionUpsert =>
      if p.subscription.Some? { UpsertKeepsValid(t, p.subscription.value, now); }
    case SubscriptionCancel =>
      if p.subscription.Some? { CancelKeepsValid(t, p.subscription.value.id, now); }
    case SubscriptionRevoke =>
      if p.subscription.Some? { RevokeKeepsValid(t, p.subscription.value.id, now); }
    case OrderRecord =>
      if p.order.Some? { RecordKeepsValid(t, p.order.value, now); }
    case OrderRefund =>
      if p.order.Some? { RefundKeepsValid(t, p.order.value.id, now); }
  }

  // ----------------------------------------------- events that change nothing

  /** When the database fails, the catch-all leaves every table as it was. */
  lemma FailedWriteChangesNothing(t: Tables, p: Payload, now: Time)
    ensures OnPayload(t, p, now, true) == t
  {
  }

  /**
   * Checkout, customer, product and benefit events, every unrecognised type,
   * and a subscription or order event without its `data.subscription` or
   * `data.order` change nothing.
   */
  lemma NoOpEventsChangeNothing(t: Tables, p: Payload, now: Time, fault: bool)
    requires || p.eventType !in MutatingTypes
             || (p.eventType in SubscriptionTypes && p.subscription.None?)
             || (p.eventType in OrderFamilyTypes && p.order.None?)
    ensures OnPayload(t, p, now, fault) == t
  {
    HandlerForSelectsByType(p.eventType);
  }

  // ------------------------------------------------- subscription upsert

  /** A subscription row built from the payload at time `now`. */
  predicate CarriesPayload(row: Subscription, sub: SubscriptionData) {
    && row.status == sub.status
    && row.currentPeriodStart == Some(sub.currentPeriodStart)
    && row.currentPeriodEnd == Some(sub.currentPeriodEnd)
    && row.cancelAtPeriodEnd == Some(sub.cancelAtPeriodEnd)
  }

  /**
   * An upsert event for a provider id not yet stored inserts exactly one row,
   * numbered by the sequence, holding every payload field, with both the owner
   * and the customer set to the payload's customer and both timestamps `now`;
   * if the database rejects it, nothing changes.
   */
  lemma UpsertInsertsNewSubscription(t: Tables, p: Payload, now: Time)
    requires Valid(t)
    requires p.eventType in UpsertTypes && p.subscription.Some?
    requires FindSubscription(t.subscriptions, p.subscription.value.id).None?
    ensures var sub := p.subscription.value;
            var r := OnPayload(t, p, now, false);
            if UpsertAccepted(t, sub) then
              && r.products == t.products && r.payments == t.payments
              && r.nextPaymentId == t.nextPaymentId
              && r.nextSubscriptionId == t.nextSubscriptionId + 1
              && |r.subscriptions| == |t.subscriptions| + 1
              && r.subscriptions[..|t.subscriptions|] == t.subscriptions
              && var row := r.subscriptions[|t.subscriptions|];
                 && row.id == t.nextSubscriptionId
                 && CarriesPayload(row, sub)
                 && row.polarSubscriptionId == sub.id
                 && row.userId == sub.customerId && row.polarCustomerId == sub.customerId
                 && row.productId == Some(sub.productId)
                 && row.createdAt == Some(now) && row.updatedAt == Some(now)
            else r == t
  {
    HandlerForSelectsByType(p.eventType);
  }

  /**
   * An upsert event for a stored provider id changes that row's status,
   * period, cancel flag and `updated_at` only, and no other row; if the
   * database rejects it, nothing changes.
   */
  lemma UpsertUpdatesExistingSubscription(t: Tables, p: Payload, now: Time, i: nat)
    requires Valid(t)
    requires p.eventType in UpsertTypes && p.subscription.Some?
    requires i < |t.subscriptions| && t.subscriptions[i].polarSubscriptionId == p.subscription.value.id
    ensures var sub := p.subscription.value;
            var r := OnPayload(t, p, now, false);
            var old_ := t.subscriptions[i];
            if UpsertAccepted(t, sub) then
              && r.products == t.products && r.payments == t.payments
              && r.nextSubscriptionId == t.nextSubscriptionId && r.nextPaymentId == t.nextPaymentId
              && |r.subscriptions| == |t.subscriptions|
              && (forall j :: 0 <= j < |t.subscriptions| && j != i ==> r.subscriptions[j] == t.subscriptions[j])
              && var row := r.subscriptions[i];
                 && CarriesPayload(row, sub) && row.updatedAt == Some(now)
                 && row.id == old_.id && row.userId == old_.userId && row.productId == old_.productId
                 && row.polarSubscriptionId == old_.polarSubscriptionId
                 && row.polarCustomerId == old_.polarCustomerId && row.createdAt == old_.createdAt
            else r == t
  {
    HandlerForSelectsByType(p.eventType);
    SubscriptionKeyIsUnique(t, i);
  }

  /**
   * Whatever came before, an accepted upsert leaves the row for its provider
   * id holding that event's status, period and cancel flag: the last event
   * applied wins.
   */
  lemma UpsertLastWriteWins(t: Tables, p: Payload, now: Time)
    requires Valid(t)
    requires p.eventType in UpsertTypes && p.subscription.Some? && UpsertAccepted(t, p.subscription.value)
    ensures var r := OnPayload(t, p, now, false);
            var k := FindSubscription(r.subscriptions, p.subscription.value.id);
            k.Some? && CarriesPayload(r.subscriptions[k.value], p.subscription.value)
  {
    var sub := p.subscription.value;
    match FindSubscription(t.subscriptions, sub.id)
    case Some(i) =>
      UpsertUpdatesExistingSubscription(t, p, now, i);
      OnPayloadKeepsValid(t, p, now, false);
      SubscriptionKeyIsUnique(OnPayload(t, p, now, false), i);
    case None =>
      UpsertInsertsNewSubscription(t, p, now);
      OnPayloadKeepsValid(t, p, now, false);
      SubscriptionKeyIsUnique(OnPayload(t, p, now, false), |t.subscriptions|);
  }

  // ------------------------------------------------- cancel and revoke

  /**
   * `subscription.canceled` marks the row with that provider id canceled
   * with `cancel_at_period_end` set, touching nothing else; an unknown id
   * changes nothing; no row becomes revoked.
   */
  lemma CancelMarksIntent(t: Tables, p: Payload, now: Time)
    requires Valid(t)
    requires p.eventType == "subscription.canceled" && p.subscription.Some?
    ensures var key := p.subscription.value.id;
            var r := OnPayload(t, p, now, false);
            && r.products == t.products && r.payments == t.payments
            && r.nextSubscriptionId == t.nextSubscriptionId && r.nextPaymentId == t.nextPaymentId
            && |r.subscriptions| == |t.subscriptions|
            && (forall j :: 0 <= j < |t.subscriptions| ==>
                  if t.subscriptions[j].polarSubscriptionId == key
                  then r.subscriptions[j] == t.subscriptions[j].(status := "canceled",
                                                                cancelAtPeriodEnd := Some(true),
                                                                updatedAt := Some(now))
                  else r.subscriptions[j] == t.subscriptions[j])
            && (FindSubscription(t.subscriptions, key).None? ==> r == t)
            && (forall j :: 0 <= j < |r.subscriptions| && r.subscriptions[j].status == "revoked" ==>
                  t.subscriptions[j].status == "revoked")
  {
    HandlerForSelectsByType(p.eventType);
    var key := p.subscription.value.id;
    match FindSubscription(t.subscriptions, key)
    case Some(i) => SubscriptionKeyIsUnique(t, i);
    case None =>
  }

  /**
   * `subscription.revoked` marks the row with that provider id revoked,
   * keeping its `cancel_at_period_end`, touching nothing else; an unknown id
   * changes nothing.
   */
  lemma RevokeEndsAccess(t: Tables, p: Payload, now: Time)
    requires Valid(t)
    requires p.eventType == "subscription.revoked" && p.subscription.Some?
    ensures var key := p.subscription.value.id;
            var r := OnPayload(t, p, now, false);
            && r.products == t.products && r.payments == t.payments
            && r.nextSubscriptionId == t.nextSubscriptionId && r.nextPaymentId == t.nextPaymentId
            && |r.subscriptions| == |t.subscriptions|
            && (forall j :: 0 <= j < |t.subscriptions| ==>
                  if t.subscriptions[j].polarSubscriptionId == key
                  then r.subscriptions[j] == t.subscriptions[j].(status := "revoked", updatedAt := Some(now))
                  else r.subscriptions[j] == t.subscriptions[j])
            && (forall j :: 0 <= j < |t.subscriptions| ==>
                  r.subscriptions[j].cancelAtPeriodEnd == t.subscriptions[j].cancelAtPeriodEnd)
            && (FindSubscription(t.subscriptions, key).None? ==> r == t)
  {
    HandlerForSelectsByType(p.eventType);
    var key := p.subscription.value.id;
    match FindSubscription(t.subscriptions, key)
    case Some(i) => SubscriptionKeyIsUnique(t, i);
    case None =>
  }

  // ----------------------------------------------------------- orders

  /** Whether the order's own values fit the `payments` columns. */
  predicate OrderFits(order: OrderData) {
    && FitsVarchar(order.customerId, KeyWidth)
    && IsInt4(order.amountSubtotalCents)
    && FitsVarchar(order.status, StatusWidth)
    && FitsVarchar(order.id, KeyWidth)
  }

  /** The linked subscription id is a stored id, so it fits its column and resolves. */
  lemma LinkResolves(t: Tables, order: OrderData)
    requires Valid(t)
    ensures var link := LinkedSubscription(t.subscriptions, order);
            link.Some? ==> IsInt4(link.value) && HasSubscription(t.subscriptions, link.value)
  {
  }

  /**
   * The payment's `subscription_id` is the internal id of the subscription
   * whose provider id the order names, and null when the order names none,
   * names the empty string, or names one that is not stored.
   */
  lemma LinkIsLookup(t: Tables, order: OrderData)
    requires Valid(t)
    ensures forall k :: 0 <= k < |t.subscriptions| && t.subscriptions[k].polarSubscriptionId != ""
                        && order.subscriptionId == Some(t.subscriptions[k].polarSubscriptionId)
                        ==> LinkedSubscription(t.subscriptions, order) == Some(t.subscriptions[k].id)
    ensures || order.subscriptionId.None? || order.subscriptionId == Some("")
            || (forall k :: 0 <= k < |t.subscriptions| ==>
                  Some(t.subscriptions[k].polarSubscriptionId) != order.subscriptionId)
            ==> LinkedSubscription(t.subscriptions, order).None?
  {
    forall k | 0 <= k < |t.subscriptions| && t.subscriptions[k].polarSubscriptionId != ""
               && order.subscriptionId == Some(t.subscriptions[k].polarSubscriptionId)
      ensures LinkedSubscription(t.subscriptions, order) == Some(t.subscriptions[k].id)
    {
      SubscriptionKeyIsUnique(t, k);
    }
  }

  /** Under the schema's constraints, the payment insert fails only on the order's own values. */
  lemma RecordPaymentAccepts(t: Tables, order: OrderData, now: Time)
    requires Valid(t) && FindPayment(t.payments, order.id).None?
    ensures var v := PaymentValuesFor(t.subscriptions, order);
            RecordPayment(t, order, now)
              == if OrderFits(order) && IsInt4(t.nextPaymentId)
                 then Ok(t.(payments := t.payments + [NewPayment(t.nextPaymentId, v, now)],
                            nextPaymentId := t.nextPaymentId + 1))
                 else Err(if OrderFits(order) then SequenceExhausted else ValueRejected)
  {
    LinkResolves(t, order);
  }

  /**
   * An order event for a payment id not yet stored records exactly one payment
   * with the order's customer, subtotal, status and id, linked as `LinkIsLookup`
   * says. If the database rejects the order's values, nothing changes.
   */
  lemma OrderRecordsPayment(t: Tables, p: Payload, now: Time)
    requires Valid(t)
    requires p.eventType in OrderTypes && p.order.Some?
    requires FindPayment(t.payments, p.order.value.id).None?
    ensures var order := p.order.value;
            var r := OnPayload(t, p, now, false);
            if OrderFits(order) && IsInt4(t.nextPaymentId) then
              && r.products == t.products && r.subscriptions == t.subscriptions
              && r.nextSubscriptionId == t.nextSubscriptionId
              && r.nextPaymentId == t.nextPaymentId + 1
              && |r.payments| == |t.payments| + 1
              && r.payments[..|t.payments|] == t.payments
              && var row := r.payments[|t.payments|];
                 && row.id == t.nextPaymentId
                 && row.polarPaymentId == order.id && row.userId == order.customerId
                 && row.amountCents == order.amountSubtotalCents && row.status == order.status
                 && row.subscriptionId == LinkedSubscription(t.subscriptions, order)
                 && row.createdAt == Some(now) && row.updatedAt == Some(now)
            else r == t
  {
    HandlerForSelectsByType(p.eventType);
    RecordPaymentAccepts(t, p.order.value, now);
  }

  /**
   * Redelivering an order whose payment id is already stored changes nothing,
   * whether or not the database fails: the insert breaks the unique key and
   * the catch-all swallows the error. The stored payment keeps its amount and
   * status, and it is the only row with that id.
   */
  lemma OrderRedeliveryKeepsOriginal(t: Tables, p: Payload, now: Time, fault: bool, i: nat)
    requires Valid(t)
    requires p.eventType in OrderTypes && p.order.Some?
    requires i < |t.payments| && t.payments[i].polarPaymentId == p.order.value.id
    ensures var r := OnPayload(t, p, now, fault);
            && r == t
            && (forall j :: 0 <= j < |r.payments| && r.payments[j].polarPaymentId == p.order.value.id ==> j == i)
  {
    HandlerForSelectsByType(p.eventType);
  }

  /**
   * Delivering the same `order.paid` twice leaves exactly one payment for it,
   * holding the order's amount.
   */
  lemma PaidTwiceRecordsOnce(t: Tables, p: Payload, n1: Time, n2: Time)
    requires Valid(t)
    requires p.eventType == "order.paid" && p.order.Some?
    requires FindPayment(t.payments, p.order.value.id).None?
    requires OrderFits(p.order.value) && IsInt4(t.nextPaymentId)
    ensures var r := OnPayload(OnPayload(t, p, n1, false), p, n2, false);
            && |r.payments| == |t.payments| + 1
            && r.payments[|t.payments|].polarPaymentId == p.order.value.id
            && r.payments[|t.payments|].amountCents == p.order.value.amountSubtotalCents
            && (forall j :: 0 <= j < |r.payments| && r.payments[j].polarPaymentId == p.order.value.id ==> j == |t.payments|)
  {
    var r1 := OnPayload(t, p, n1, false);
    OrderRecordsPayment(t, p, n1);
    OnPayloadKeepsValid(t, p, n1, false);
    OrderRedeliveryKeepsOriginal(r1, p, n2, false, |t.payments|);
  }

  /**
   * `order.refunded` marks the payment with that id refunded and touches
   * nothing else; an unknown id changes nothing.
   */
  lemma RefundMarksOnlyThatPayment(t: Tables, p: Payload, now: Time)
    requires Valid(t)
    requires p.eventType == "order.refunded" && p.order.Some?
    ensures var key := p.order.value.id;
            var r := OnPayload(t, p, now, false);
            && r.products == t.products && r.subscriptions == t.subscriptions
            && r.nextSubscriptionId == t.nextSubscriptionId && r.nextPaymentId == t.nextPaymentId
            && |r.payments| == |t.payments|
            && (forall j :: 0 <= j < |t.payments| ==>
                  if t.payments[j].polarPaymentId == key
                  then r.payments[j] == t.payments[j].(status := "refunded", updatedAt := Some(now))
                  else r.payments[j] == t.payments[j])
            && (FindPayment(t.payments, key).None? ==> r == t)
  {
    HandlerForSelectsByType(p.eventType);
    match FindPayment(t.payments, p.order.value.id)
    case Some(i) => PaymentKeyIsUnique(t, i);
    case None =>
  }

  // ------------------------------------------------------- redelivery

  /** Two databases that differ at most in their `updated_at` columns. */
  predicate SameExceptUpdatedAt(a: Tables, b: Tables) {
    && a.products == b.products
    && a.nextSubscriptionId == b.nextSubscriptionId && a.nextPaymentId == b.nextPaymentId
    && |a.subscriptions| == |b.subscriptions| && |a.payments| == |b.payments|
    && (forall i :: 0 <= i < |a.subscriptions| ==>
          a.subscriptions[i].(updatedAt := None) == b.subscriptions[i].(updatedAt := None))
    && (forall i :: 0 <= i < |a.payments| ==>
          a.payments[i].(updatedAt := None) == b.payments[i].(updatedAt := None))
  }

  lemma UpsertRedelivery(t: Tables, p: Payload, n1: Time, n2: Time, fault: bool)
    requires Valid(t)
    requires p.eventType in UpsertTypes && p.subscription.Some?
    ensures var once := OnPayload(t, p, n1, false);
            SameExceptUpdatedAt(OnPayload(once, p, n2, fault), once)
  {
    HandlerForSelectsByType(p.eventType);
    if UpsertAccepted(t, p.subscription.value) {
      UpsertLastWriteWins(t, p, n1);
      UpsertOfCarriedPayload(OnPayload(t, p, n1, false), p, n2, fault);
    }
  }

  /** An upsert whose row already carries the event's values touches only `updated_at`. */
  lemma UpsertOfCarriedPayload(t: Tables, p: Payload, now: Time, fault: bool)
    requires p.eventType in UpsertTypes && p.subscription.Some?
    requires var k := FindSubscription(t.subscriptions, p.subscription.value.id);
             k.Some? && CarriesPayload(t.subscriptions[k.value], p.subscription.value)
    ensures SameExceptUpdatedAt(OnPayload(t, p, now, fault), t)
  {
    HandlerForSelectsByType(p.eventType);
    var sub := p.subscription.value;
    var k := FindSubscription(t.subscriptions, sub.id).value;
    var row := t.subscriptions[k];
    assert ConflictUpdate(row, sub, now) == row.(updatedAt := Some(now));
    if !fault && SubscriptionValuesFit(UpsertValues(sub)) && IsInt4(t.nextSubscriptionId) {
      assert OnPayload(t, p, now, fault) == t.(subscriptions := t.subscriptions[k := row.(updatedAt := Some(now))]);
    } else {
      assert OnPayload(t, p, now, fault) == t;
    }
  }

  lemma CancelRedelivery(t: Tables, p: Payload, n1: Time, n2: Time, fault: bool)
    requires Valid(t)
    requires p.eventType == "subscription.canceled" && p.subscription.Some?
    ensures var once := OnPayload(t, p, n1, false);
            SameExceptUpdatedAt(OnPayload(once, p, n2, fault), once)
  {
    var key := p.subscription.value.id;
    HandlerForSelectsByType(p.eventType);
    match FindSubscription(t.subscriptions, key)
    case Some(i) =>
      var once := CancelSubscription(t, key, n1);
      assert OnPayload(t, p, n1, false) == once;
      CancelKeepsValid(t, key, n1);
      SubscriptionKeyIsUnique(once, i);
      var twice := CancelSubscription(once, key, n2);
      assert twice.subscriptions == once.subscriptions[i := once.subscriptions[i].(updatedAt := Some(n2))];
      assert fault ==> OnPayload(once, p, n2, fault) == once;
      assert !fault ==> OnPayload(once, p, n2, fault) == twice;
    case None =>
  }

  lemma RevokeRedelivery(t: Tables, p: Payload, n1: Time, n2: Time, fault: bool)
    requires Valid(t)
    requires p.eventType == "subscription.revoked" && p.subscription.Some?
    ensures var once := OnPayload(t, p, n1, false);
            SameExceptUpdatedAt(OnPayload(once, p, n2, fault), once)
  {
    var key := p.subscription.value.id;
    HandlerForSelectsByType(p.eventType);
    match FindSubscription(t.subscriptions, key)
    case Some(i) =>
      var once := RevokeSubscription(t, key, n1);
      assert OnPayload(t, p, n1, false) == once;
      RevokeKeepsValid(t, key, n1);
      SubscriptionKeyIsUnique(once, i);
      var twice := RevokeSubscription(once, key, n2);
      assert twice.subscriptions == once.subscriptions[i := once.subscriptions[i].(updatedAt := Some(n2))];
      assert fault ==> OnPayload(once, p, n2, fault) == once;
      assert !fault ==> OnPayload(once, p, n2, fault) == twice;
    case None =>
  }

  lemma RefundRedelivery(t: Tables, p: Payload, n1: Time, n2: Time, fault: bool)
    requires Valid(t)
    requires p.eventType == "order.refunded" && p.order.Some?
    ensures var once := OnPayload(t, p, n1, false);
            SameExceptUpdatedAt(OnPayload(once, p, n2, fault), once)
  {
    var key := p.order.value.id;
    HandlerForSelectsByType(p.eventType);
    match FindPayment(t.payments, key)
    case Some(i) =>
      var once := RefundPayment(t, key, n1);
      assert OnPayload(t, p, n1, false) == once;
      RefundKeepsValid(t, key, n1);
      PaymentKeyIsUnique(once, i);
      var twice := RefundPayment(once, key, n2);
      assert twice.payments == once.payments[i := once.payments[i].(updatedAt := Some(n2))];
      assert fault ==> OnPayload(once, p, n2, fault) == once;
      assert !fault ==> OnPayload(once, p, n2, fault) == twice;
    case None =>
  }

  lemma OrderRedelivery(t: Tables, p: Payload, n1: Time, n2: Time, fault: bool)
    requires Valid(t)
    requires p.eventType in OrderTypes && p.order.Some?
    ensures var once := OnPayload(t, p, n1, false);
            OnPayload(once, p, n2, fault) == once
  {
    var order := p.order.value;
    match FindPayment(t.payments, order.id)
    case Some(i) =>
      OrderRedeliveryKeepsOriginal(t, p, n1, false, i);
      OrderRedeliveryKeepsOriginal(t, p, n2, fault, i);
    case None =>
      OrderRecordsPayment(t, p, n1);
      OrderRecordsPayment(t, p, n2);
      if OrderFits(order) && IsInt4(t.nextPaymentId) {
        var once := OnPayload(t, p, n1, false);
        OnPayloadKeepsValid(t, p, n1, false);
        OrderRedeliveryKeepsOriginal(once, p, n2, fault, |t.payments|);
      } else if !fault {
        assert OnPayload(t, p, n2, fault) == t;
      }
  }

  /**
   * At-least-once delivery is harmless: delivering any event a second time,
   * after it was applied once, changes nothing but `updated_at` timestamps,
   * whether or not the second attempt meets a database failure.
   */
  lemma RedeliveryIsIdempotent(t: Tables, p: Payload, n1: Time, n2: Time, fault: bool)
    requires Valid(t)
    ensures var once := OnPayload(t, p, n1, false);
            SameExceptUpdatedAt(OnPayload(once, p, n2, fault), once)
  {
    HandlerForSelectsByType(p.eventType);
    match HandlerFor(p.eventType)
    case LogOnly =>
    case SubscriptionUpsert =>
      if p.subscription.Some? { UpsertRedelivery(t, p, n1, n2, fault); }
    case SubscriptionCancel =>
      if p.subscription.Some? { CancelRedelivery(t, p, n1, n2, fault); }
    case SubscriptionRevoke =>
      if p.subscription.Some? { RevokeRedelivery(t, p, n1, n2, fault); }
    case OrderRecord =>
      if p.order.Some? { OrderRedelivery(t, p, n1, n2, fault); }
    case OrderRefund =>
      if p.order.Some? { RefundRedelivery(t, p, n1, n2, fault); }
  }

  // -------------------------------------------------------- lifecycle

  /**
   * A trial is created, canceled, then revoked. It grants access while
   * trialing; cancellation records the intent (`cancel_at_period_end`) and
   * the status `canceled`, which `hasActiveSubscription` already reports as
   * inactive; revocation sets `revoked` and keeps the intent flag.
   */
  lemma TrialCanceledThenRevoked(t: Tables, created: Payload, canceled: Payload, revoked: Payload,
                                 n1: Time, n2: Time, n3: Time)
    requires Valid(t)
    requires created.eventType == "subscription.created" && created.subscription.Some?
    requires created.subscription.value.status == "trialing"
    requires FindSubscription(t.subscriptions, created.subscription.value.id).None?
    requires UpsertAccepted(t, created.subscription.value)
    requires canceled.eventType == "subscription.canceled" && canceled.subscription.Some?
    requires canceled.subscription.value.id == created.subscription.value.id
    requires revoked.eventType == "subscription.revoked" && revoked.subscription.Some?
    requires revoked.subscription.value.id == created.subscription.value.id
    ensures var t1 := OnPayload(t, created, n1, false);
            var t2 := OnPayload(t1, canceled, n2, false);
            var t3 := OnPayload(t2, revoked, n3, false);
            var i := |t.subscriptions|;
            && i < |t1.subscriptions| == |t2.subscriptions| == |t3.subscriptions|
            && t1.subscriptions[i].status == "trialing"
            && Polar.HasActiveSubscription(Some(t1.subscriptions[i].status))
            && t2.subscriptions[i].status == "canceled"
            && t2.subscriptions[i].cancelAtPeriodEnd == Some(true)
            && !Polar.HasActiveSubscription(Some(t2.subscriptions[i].status))
            && t3.subscriptions[i].status == "revoked"
            && t3.subscriptions[i].cancelAtPeriodEnd == Some(true)
            && !Polar.HasActiveSubscription(Some(t3.subscriptions[i].status))
  {
    var key := created.subscription.value.id;
    var i := |t.subscriptions|;
    var t1 := OnPayload(t, created, n1, false);
    UpsertInsertsNewSubscription(t, created, n1);
    assert t1.subscriptions[i].polarSubscriptionId == key && t1.subscriptions[i].status == "trialing";
    OnPayloadKeepsValid(t, created, n1, false);
    SubscriptionKeyIsUnique(t1, i);

    var t2 := CancelSubscription(t1, key, n2);
    HandlerForSelectsByType(canceled.eventType);
    assert OnPayload(t1, canceled, n2, false) == t2;
    assert t2.subscriptions[i] == t1.subscriptions[i].(status := "canceled", cancelAtPeriodEnd := Some(true),
                                                       updatedAt := Some(n2));
    CancelKeepsValid(t1, key, n2);
    SubscriptionKeyIsUnique(t2, i);

    var t3 := RevokeSubscription(t2, key, n3);
    HandlerForSelectsByType(revoked.eventType);
    assert OnPayload(t2, revoked, n3, false) == t3;
    assert t3.subscriptions[i] == t2.subscriptions[i].(status := "revoked", updatedAt := Some(n3));
  }
}
