/**
 * The billing database of src/db/schema.ts: the `products`, `subscriptions`
 * and `payments` row shapes, the values an insert supplies and the defaults
 * the database fills in, and the constraints PostgreSQL enforces (column
 * widths, integer range, serial primary keys, unique provider keys, foreign
 * keys). A table is a sequence of rows in insertion order; a nullable column
 * is an `Option`.
 */
module Schema {
  import opened Wrappers

  /** A timestamp, in milliseconds since the Unix epoch. */
  type Time = int

  /** The range of a PostgreSQL `integer` column. */
  const Int4Min: int := -0x8000_0000
  const Int4Max: int := 0x7FFF_FFFF

  /** Declared widths of the `varchar` columns. */
  const KeyWidth: nat := 255
  const StatusWidth: nat := 50
  const IntervalWidth: nat := 50
  const DescriptionWidth: nat := 1000

  /** What `cancel_at_period_end` holds when an insert leaves it out. */
  const DefaultCancelAtPeriodEnd: bool := false

  predicate IsInt4(n: int) { Int4Min <= n <= Int4Max }

  predicate FitsVarchar(s: string, width: nat) { |s| <= width }

  // ---------------------------------------------------------------- rows

  /** A row of `products`; the core only reads this table. */
  datatype Product = Product(
    id: int,
    name: string,
    description: Option<string>,
    priceCents: int,
    interval: string,
    polarPriceId: string,
    active: Option<bool>,
    createdAt: Option<Time>)

  /** A row of `subscriptions`. */
  datatype Subscription = Subscription(
    id: int,
    userId: string,
    productId: Option<int>,
    status: string,
    currentPeriodStart: Option<Time>,
    currentPeriodEnd: Option<Time>,
    cancelAtPeriodEnd: Option<bool>,
    polarSubscriptionId: string,
    polarCustomerId: string,
    createdAt: Option<Time>,
    updatedAt: Option<Time>)

  /** A row of `payments`. */
  datatype Payment = Payment(
    id: int,
    userId: string,
    subscriptionId: Option<int>,
    amountCents: int,
    status: string,
    polarPaymentId: string,
    createdAt: Option<Time>,
    updatedAt: Option<Time>)

  // ------------------------------------------------------ insert values

  /**
   * The columns an insert into `subscriptions` may supply. `id`,
   * `created_at` and `updated_at` are always left to the database;
   * `cancelAtPeriodEnd == None` means the insert leaves that column out.
   */
  datatype SubscriptionValues = SubscriptionValues(
    userId: string,
    productId: Option<int>,
    status: string,
    currentPeriodStart: Option<Time>,
    currentPeriodEnd: Option<Time>,
    cancelAtPeriodEnd: Option<bool>,
    polarSubscriptionId: string,
    polarCustomerId: string)

  /** The columns an insert into `payments` supplies. */
  datatype PaymentValues = PaymentValues(
    userId: string,
    subscriptionId: Option<int>,
    amountCents: int,
    status: string,
    polarPaymentId: string)

  /** The supplied columns of a stored subscription. */
  function SubscriptionValuesOf(r: Subscription): SubscriptionValues {
    SubscriptionValues(r.userId, r.productId, r.status, r.currentPeriodStart, r.currentPeriodEnd,
                       r.cancelAtPeriodEnd, r.polarSubscriptionId, r.polarCustomerId)
  }

  /** The supplied columns of a stored payment. */
  function PaymentValuesOf(r: Payment): PaymentValues {
    PaymentValues(r.userId, r.subscriptionId, r.amountCents, r.status, r.polarPaymentId)
  }

  /** Whether every supplied value fits its column's declared type. */
  predicate SubscriptionValuesFit(v: SubscriptionValues) {
    && FitsVarchar(v.userId, KeyWidth)
    && (v.productId.Some? ==> IsInt4(v.productId.value))
    && FitsVarchar(v.status, StatusWidth)
    && FitsVarchar(v.polarSubscriptionId, KeyWidth)
    && FitsVarchar(v.polarCustomerId, KeyWidth)
  }

  predicate PaymentValuesFit(v: PaymentValues) {
    && FitsVarchar(v.userId, KeyWidth)
    && (v.subscriptionId.Some? ==> IsInt4(v.subscriptionId.value))
    && IsInt4(v.amountCents)
    && FitsVarchar(v.status, StatusWidth)
    && FitsVarchar(v.polarPaymentId, KeyWidth)
  }

  predicate ProductFits(p: Product) {
    && FitsVarchar(p.name, KeyWidth)
    && (p.description.Some? ==> FitsVarchar(p.description.value, DescriptionWidth))
    && IsInt4(p.priceCents)
    && FitsVarchar(p.interval, IntervalWidth)
    && FitsVarchar(p.polarPriceId, KeyWidth)
  }

  /**
   * The row the database stores for an insert of `v` that it numbers `id`
   * at time `now`: the supplied values, with the column defaults filled in.
   */
  function NewSubscription(id: int, v: SubscriptionValues, now: Time): (r: Subscription)
    ensures r.id == id
    ensures r.createdAt == Some(now) && r.updatedAt == Some(now)
    ensures v.cancelAtPeriodEnd.None? ==> r.cancelAtPeriodEnd == Some(DefaultCancelAtPeriodEnd)
    ensures SubscriptionValuesOf(r) == v.(cancelAtPeriodEnd := Some(v.cancelAtPeriodEnd.GetOr(DefaultCancelAtPeriodEnd)))
    ensures SubscriptionValuesFit(v) ==> SubscriptionValuesFit(SubscriptionValuesOf(r))
  {
    Subscription(id, v.userId, v.productId, v.status, v.currentPeriodStart, v.currentPeriodEnd,
                 Some(v.cancelAtPeriodEnd.GetOr(DefaultCancelAtPeriodEnd)),
                 v.polarSubscriptionId, v.polarCustomerId, Some(now), Some(now))
  }

  function NewPayment(id: int, v: PaymentValues, now: Time): (r: Payment)
    ensures r.id == id
    ensures r.createdAt == Some(now) && r.updatedAt == Some(now)
    ensures PaymentValuesOf(r) == v
  {
    Payment(id, v.userId, v.subscriptionId, v.amountCents, v.status, v.polarPaymentId, Some(now), Some(now))
  }

  // -------------------------------------------------------- the database

  /** The three tables, with the next value of each serial `id` sequence. */
  datatype Tables = Tables(
    products: seq<Product>,
    subscriptions: seq<Subscription>,
    payments: seq<Payment>,
    nextSubscriptionId: int,
    nextPaymentId: int)

  /** An empty database over a product catalog; serial sequences start at 1. */
  function Fresh(catalog: seq<Product>): Tables {
    Tables(catalog, [], [], 1, 1)
  }

  predicate HasProduct(products: seq<Product>, id: int) {
    exists k :: 0 <= k < |products| && products[k].id == id
  }

  predicate HasSubscription(subs: seq<Subscription>, id: int) {
    exists k :: 0 <= k < |subs| && subs[k].id == id
  }

  /** Primary key and `polar_price_id` unique. */
  predicate ProductsValid(products: seq<Product>) {
    && (forall i :: 0 <= i < |products| ==> ProductFits(products[i]))
    && (forall i, j :: 0 <= i < j < |products| ==> products[i].id != products[j].id)
    && (forall i, j :: 0 <= i < j < |products| ==> products[i].polarPriceId != products[j].polarPriceId)
  }

  /**
   * Serial (`integer`) primary key below the sequence's next value, `polar_subscription_id`
   * unique, values of their column types, `product_id` referencing a product.
   */
  predicate SubscriptionsValid(subs: seq<Subscription>, next: int, products: seq<Product>) {
    && 1 <= next
    && (forall i :: 0 <= i < |subs| ==> 1 <= subs[i].id < next && subs[i].id <= Int4Max)
    && (forall i, j :: 0 <= i < j < |subs| ==> subs[i].id < subs[j].id)
    && (forall i, j :: 0 <= i < j < |subs| ==> subs[i].polarSubscriptionId != subs[j].polarSubscriptionId)
    && (forall i :: 0 <= i < |subs| ==> SubscriptionValuesFit(SubscriptionValuesOf(subs[i])))
    && (forall i :: 0 <= i < |subs| && subs[i].productId.Some? ==> HasProduct(products, subs[i].productId.value))
  }

  /**
   * Serial primary key below the sequence's next value, `polar_payment_id`
   * unique, values of their column types, `subscription_id` referencing a
   * subscription when it is not null.
   */
  predicate PaymentsValid(pays: seq<Payment>, next: int, subs: seq<Subscription>) {
    && 1 <= next
    && (forall i :: 0 <= i < |pays| ==> 1 <= pays[i].id < next && pays[i].id <= Int4Max)
    && (forall i, j :: 0 <= i < j < |pays| ==> pays[i].id < pays[j].id)
    && (forall i, j :: 0 <= i < j < |pays| ==> pays[i].polarPaymentId != pays[j].polarPaymentId)
    && (forall i :: 0 <= i < |pays| ==> PaymentValuesFit(PaymentValuesOf(pays[i])))
    && (forall i :: 0 <= i < |pays| && pays[i].subscriptionId.Some? ==> HasSubscription(subs, pays[i].subscriptionId.value))
  }

  /** Every constraint the schema declares holds. */
  predicate Valid(t: Tables) {
    && ProductsValid(t.products)
    && SubscriptionsValid(t.subscriptions, t.nextSubscriptionId, t.products)
    && PaymentsValid(t.payments, t.nextPaymentId, t.subscriptions)
  }

  // ------------------------------------------------------- key lookups

  /** The position of the subscription whose `polar_subscription_id` is `key`. */
  function FindSubscription(subs: seq<Subscription>, key: string): (r: Option<nat>)
    ensures r.Some? ==> r.value < |subs| && subs[r.value].polarSubscriptionId == key
    ensures r.None? <==> forall i :: 0 <= i < |subs| ==> subs[i].polarSubscriptionId != key
  {
    if |subs| == 0 then None
    else if subs[|subs| - 1].polarSubscriptionId == key then Some(|subs| - 1)
    else FindSubscription(subs[..|subs| - 1], key)
  }

  /** The position of the payment whose `polar_payment_id` is `key`. */
  function FindPayment(pays: seq<Payment>, key: string): (r: Option<nat>)
    ensures r.Some? ==> r.value < |pays| && pays[r.value].polarPaymentId == key
    ensures r.None? <==> forall i :: 0 <= i < |pays| ==> pays[i].polarPaymentId != key
  {
    if |pays| == 0 then None
    else if pays[|pays| - 1].polarPaymentId == key then Some(|pays| - 1)
    else FindPayment(pays[..|pays| - 1], key)
  }

  // ----------------------------------------------------------- lemmas

  /** The empty database over a valid catalog satisfies every constraint. */
  lemma FreshIsValid(catalog: seq<Product>)
    requires ProductsValid(catalog)
    ensures Valid(Fresh(catalog))
  {
  }

  /**
   * At most one subscription row per `polar_subscription_id`: a lookup by
   * a stored key finds exactly the row that carries it.
   */
  lemma SubscriptionKeyIsUnique(t: Tables, i: nat)
    requires Valid(t) && i < |t.subscriptions|
    ensures FindSubscription(t.subscriptions, t.subscriptions[i].polarSubscriptionId) == Some(i)
  {
  }

  /** At most one payment row per `polar_payment_id`. */
  lemma PaymentKeyIsUnique(t: Tables, i: nat)
    requires Valid(t) && i < |t.payments|
    ensures FindPayment(t.payments, t.payments[i].polarPaymentId) == Some(i)
  {
  }

  /** At most one product row per `polar_price_id`. */
  lemma PriceKeyIsUnique(t: Tables, i: nat, j: nat)
    requires Valid(t) && i < |t.products| && j < |t.products|
    requires t.products[i].polarPriceId == t.products[j].polarPriceId
    ensures i == j
  {
  }

  /**
   * A payment's `subscription_id` is null or the `id` of a stored subscription.
   */
  lemma PaymentLinkResolves(t: Tables, i: nat)
    requires Valid(t) && i < |t.payments| && t.payments[i].subscriptionId.Some?
    ensures exists k :: 0 <= k < |t.subscriptions| && t.subscriptions[k].id == t.payments[i].subscriptionId.value
  {
  }

  /**
   * References into `subscriptions` survive any change that keeps the `id`
   * of every existing row in place (an update of other columns, or an append).
   */
  lemma SubscriptionIdsKept(subs: seq<Subscription>, subs': seq<Subscription>, id: int)
    requires |subs| <= |subs'|
    requires forall k :: 0 <= k < |subs| ==> subs'[k].id == subs[k].id
    requires HasSubscription(subs, id)
    ensures HasSubscription(subs', id)
  {
    var k :| 0 <= k < |subs| && subs[k].id == id;
    assert subs'[k].id == id;
  }
}
