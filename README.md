# Polar billing webhook: a verified model

This project models the billing core of a Next.js SaaS starter that sells
subscriptions through Polar. It has three parts:

- the **webhook reconciler** (`onPayload` in
  `src/app/api/webhooks/polar/route.ts`). It receives an already verified
  Polar event and switches on its `type`. It then applies at most one write
  to the `subscriptions` or `payments` table:
  - subscription events upsert by `polar_subscription_id`;
  - `subscription.canceled` and `subscription.revoked` mark a row;
  - `order.created` and `order.paid` insert a payment, linked to its
    subscription;
  - `order.refunded` marks a payment.

  A catch-all swallows every error.
- the **database schema** (`src/db/schema.ts`): the `products`,
  `subscriptions` and `payments` tables. The model covers their column
  types, defaults, unique provider keys and foreign keys.
- the **display helpers** of `src/lib/polar.ts`: `formatCurrency`,
  `formatPrice` and `hasActiveSubscription`.

## Modules

- `Wrappers`: `Option`.
- `Schema`: the row datatypes and the values an insert supplies. Also:
  - the rows the database builds from those values, with the column defaults;
  - the database `Tables`: rows in insertion order, plus the next value of
    each serial sequence;
  - `Valid`, the constraints the schema declares: serial primary keys,
    unique `polar_price_id`, `polar_subscription_id` and `polar_payment_id`,
    `varchar` widths, the `integer` range, and both references;
  - the lookup by provider key.
- `Events`: the event payload, and the `switch (payload.type)` as
  `HandlerFor`.
- `Reconcile`: each branch of the switch as a function from tables to
  tables, or to a database error. `OnPayload` adds the catch-all: an error
  leaves the tables as they were.
- `Properties`: what a delivery guarantees. Every delivery keeps `Valid`.
  Each branch changes exactly the row and the columns it names. A lookup
  that misses changes nothing. No-op events change nothing. Redelivering any
  event changes nothing beyond `updated_at`.
- `Webhook`: the running handler. `BillingStore` is a class whose fields
  are the tables and sequences, with one method per branch's store work (the order branch's method
  runs the subscription lookup and then the insert), and
  `BillingStore.OnPayload` runs the switch. Every method is proved to leave
  `State()` equal to the `Reconcile` function it implements, and to keep
  `Valid()`.
- `Polar`: the display helpers. `FormatCurrency` is proved against a parser,
  `ParseCurrency`: the formatted text reads back as exactly the cents it
  came from.

The clock (`new Date()`) is a parameter `now`. A database failure outside
the model (connection lost, timeout) is a parameter `fault`: the failed
statement changes nothing, and the catch-all logs the error.

The database's own refusals come from the schema:
- a value too long for its `varchar`, or outside the `integer` range (the
  model refuses every over-long string; see "## Left out" for PostgreSQL's
  truncation of trailing spaces);
- a serial sequence past the `integer` range;
- a duplicate provider key;
- a reference to a missing row.

Each refusal is modelled as an error. Columns the schema declares `NOT NULL`
(`status`, `user_id`, `amount_cents`, the provider keys) are plain fields of
the row datatypes. Nullable columns are `Option`.

### Where the code and the documented intent differ

The handler's comments (src/app/api/webhooks/polar/route.ts:129 and 144)
say that a canceled subscription keeps access, and that only
`subscription.revoked` ends it. The handler writes data to match:
cancellation keeps the row and sets `cancel_at_period_end`. But
`hasActiveSubscription` (src/lib/polar.ts:39-41) reports a `canceled`
status as inactive. The model follows the code. So
`Properties.TrialCanceledThenRevoked` shows that `hasActiveSubscription`
turns false at `subscription.canceled`, not only at revocation. The only
callers are pages that show mock data, so no behaviour of the core depends
on it.

Order events only insert a payment (route.ts:87-93); they never update one.
Polar sends `order.created` and later `order.paid` for the same order, with
the same id. The second insert breaks the unique `polar_payment_id` and the
catch-all swallows the error. So the stored payment keeps the status it had
at `order.created` and never moves to the paid status.
`Properties.OrderRedeliveryKeepsOriginal` proves this: an order whose id is
stored leaves the tables unchanged, whatever its status.

## Model

| member | source | states |
|---|---|---|
| Schema.NewSubscription | src/db/schema.ts:17-29 | an inserted subscription row holds the supplied values, is numbered by the sequence, takes `cancel_at_period_end = false` when the value is omitted, and has `created_at = updated_at = now` |
| Schema.NewPayment | src/db/schema.ts:32-41 | an inserted payment row holds exactly the supplied values, with the drawn id and `created_at = updated_at = now` |
| Schema.FindSubscription | src/app/api/webhooks/polar/route.ts:75-79 | the lookup `where polar_subscription_id = key` returns a row carrying the key, and finds nothing exactly when no row carries it; the same lookup serves the order branch's select (route.ts:78), the conflict target of the upsert (route.ts:55), and the `where` of the cancel and revoke updates (route.ts:127, 142), over the unique column of src/db/schema.ts:25 |
| Schema.FindPayment | src/app/api/webhooks/polar/route.ts:106-112 | the lookup `where polar_payment_id = key` returns a row carrying the key, and finds nothing exactly when no row carries it; it serves the `where` of the refund update (route.ts:112) and the unique check of the payment insert, over the unique column of src/db/schema.ts:38 |
| Schema.FreshIsValid | src/db/schema.ts:5-41 | an empty `subscriptions` and `payments` over a valid product catalog satisfies every declared constraint |
| Schema.SubscriptionKeyIsUnique | src/db/schema.ts:25 | at most one subscription row per `polar_subscription_id`: looking up a stored key finds exactly the row that carries it |
| Schema.PaymentKeyIsUnique | src/db/schema.ts:38 | at most one payment row per `polar_payment_id` |
| Schema.PriceKeyIsUnique | src/db/schema.ts:11 | two products with the same `polar_price_id` are the same row |
| Schema.PaymentLinkResolves | src/db/schema.ts:35 | a non-null `payments.subscription_id` is the `id` of a stored subscription |
| Schema.SubscriptionIdsKept | src/db/schema.ts:35 | a change that keeps every subscription's `id` in place keeps every payment's reference resolvable |
| Events.HandlerFor | src/app/api/webhooks/polar/route.ts:13-160 | the switch only logs exactly for the types outside the nine subscription and order types: checkout, customer, product, benefit and unrecognised types; which mutation each other type selects is `Events.HandlerForSelectsByType` |
| Events.HandlerForSelectsByType | src/app/api/webhooks/polar/route.ts:13-160 | each store mutation is selected by exactly its event types: the four upsert types, the two order types, `order.refunded`, `subscription.canceled`, `subscription.revoked` |
| Reconcile.UpsertSubscription | src/app/api/webhooks/polar/route.ts:42-63 | the upsert succeeds exactly when the values fit, the sequence is in range, and the key is stored or the product exists; on success it changes only `subscriptions` and its sequence, and a row for the key exists afterwards; the new state in full is in `Properties.UpsertInsertsNewSubscription` and `Properties.UpsertUpdatesExistingSubscription` |
| Reconcile.CancelSubscription | src/app/api/webhooks/polar/route.ts:120-127 | the cancel update touches only `subscriptions`, keeps every row's place, id, provider key and product, and an unknown key changes nothing; the row-level effect is in `Properties.CancelMarksIntent` |
| Reconcile.RevokeSubscription | src/app/api/webhooks/polar/route.ts:136-142 | the revoke update touches only `subscriptions`, keeps every row's place, id, provider key and product, and an unknown key changes nothing; the row-level effect is in `Properties.RevokeEndsAccess` |
| Reconcile.LinkedSubscription | src/app/api/webhooks/polar/route.ts:73-84 | a linked id is the id of a stored subscription and exists only when the order's `subscription_id` is present and non-empty; both directions of the lookup are in `Properties.LinkIsLookup` |
| Reconcile.RecordPayment | src/app/api/webhooks/polar/route.ts:87-93 | a stored payment id always makes the insert fail; a successful insert appends one payment with the order's id and changes nothing else; the full row is in `Properties.OrderRecordsPayment` |
| Reconcile.RefundPayment | src/app/api/webhooks/polar/route.ts:106-112 | the refund update touches only `payments`, keeps every payment's place, id, provider key and subscription reference, and an unknown key changes nothing; the row-level effect is in `Properties.RefundMarksOnlyThatPayment` |
| Reconcile.Dispatch | src/app/api/webhooks/polar/route.ts:11-160 | with a database failure the branch either did nothing or failed with `Unavailable`; a successful branch never changes `products` and never removes a row: every subscription and payment keeps its place, serial id and provider key |
| Reconcile.OnPayload | src/app/api/webhooks/polar/route.ts:11-164 | handling any event never changes the product catalog and never deletes a subscription or payment: every existing row keeps its place, serial id and provider key; validity is `Properties.OnPayloadKeepsValid`, redelivery `Properties.RedeliveryIsIdempotent` |
| Properties.SubscriptionUpdateKeepsValid | src/app/api/webhooks/polar/route.ts:54-63 | rewriting a subscription's non-key columns with values that fit keeps every schema constraint, the payments' references included |
| Properties.PaymentUpdateKeepsValid | src/app/api/webhooks/polar/route.ts:106-112 | rewriting a payment's non-key columns with values that fit keeps every schema constraint |
| Properties.SubscriptionInsertKeepsValid | src/app/api/webhooks/polar/route.ts:42-53 | appending a fitting row with the sequence's id, a new provider key and a stored product keeps every schema constraint |
| Properties.UpsertKeepsValid | src/app/api/webhooks/polar/route.ts:42-63 | an upsert the database accepts leaves a database satisfying the schema |
| Properties.CancelKeepsValid | src/app/api/webhooks/polar/route.ts:120-127 | the cancel update leaves a database satisfying the schema |
| Properties.RevokeKeepsValid | src/app/api/webhooks/polar/route.ts:136-142 | the revoke update leaves a database satisfying the schema |
| Properties.RecordKeepsValid | src/app/api/webhooks/polar/route.ts:87-93 | a payment insert the database accepts leaves a database satisfying the schema |
| Properties.RefundKeepsValid | src/app/api/webhooks/polar/route.ts:106-112 | the refund update leaves a database satisfying the schema |
| Properties.OnPayloadKeepsValid | src/app/api/webhooks/polar/route.ts:8-165 | every delivery, of any type and whether or not the database fails, leaves a database satisfying the schema |
| Properties.FailedWriteChangesNothing | src/app/api/webhooks/polar/route.ts:161-164 | when the database fails, the catch-all leaves every table as it was |
| Properties.NoOpEventsChangeNothing | src/app/api/webhooks/polar/route.ts:13-160 | checkout, customer, product, benefit and unrecognised events, and events without their `data.subscription` or `data.order`, change nothing |
| Properties.UpsertInsertsNewSubscription | src/app/api/webhooks/polar/route.ts:36-53 | an upsert event for a new provider id appends exactly one row: the sequence's id, every payload field, `user_id` and `polar_customer_id` both the customer, timestamps `now`; nothing else changes, and a refused insert changes nothing |
| Properties.UpsertUpdatesExistingSubscription | src/app/api/webhooks/polar/route.ts:54-63 | an upsert event for a stored provider id changes only that row's status, period, cancel flag and `updated_at`; `id`, `user_id`, `product_id`, `polar_customer_id` and `created_at` stay, and other rows are untouched |
| Properties.UpsertLastWriteWins | src/app/api/webhooks/polar/route.ts:42-63 | after an accepted upsert, the row for its provider id holds that event's status, period and cancel flag |
| Properties.CancelMarksIntent | src/app/api/webhooks/polar/route.ts:117-131 | `subscription.canceled` sets `status = canceled` and `cancel_at_period_end = true` on the matching row only; an unknown id changes nothing; no row becomes `revoked` |
| Properties.RevokeEndsAccess | src/app/api/webhooks/polar/route.ts:133-146 | `subscription.revoked` sets `status = revoked` on the matching row only, keeps every `cancel_at_period_end`, and an unknown id changes nothing |
| Properties.LinkResolves | src/app/api/webhooks/polar/route.ts:73-84 | the subscription id found for an order is a stored id that fits the column |
| Properties.LinkIsLookup | src/app/api/webhooks/polar/route.ts:73-84 | the linked id is the internal id of the subscription carrying the order's `subscription_id`; it is null when the order has none, has the empty string, or names no stored row |
| Properties.RecordPaymentAccepts | src/app/api/webhooks/polar/route.ts:87-93 | under the schema's constraints, a payment insert for a new provider id fails only on the order's own values or an exhausted sequence |
| Properties.OrderRecordsPayment | src/app/api/webhooks/polar/route.ts:68-93 | an order event for a new payment id appends one payment with the order's customer, subtotal, status and id and the linked subscription; nothing else changes, and a refused insert changes nothing |
| Properties.OrderRedeliveryKeepsOriginal | src/app/api/webhooks/polar/route.ts:87-93 | an order whose payment id is stored changes nothing; the unique key is broken and the error is swallowed, so the stored payment stays the only row with that id |
| Properties.PaidTwiceRecordsOnce | src/app/api/webhooks/polar/route.ts:68-93 | delivering the same `order.paid` twice leaves exactly one payment for it, with the order's amount |
| Properties.RefundMarksOnlyThatPayment | src/app/api/webhooks/polar/route.ts:102-114 | `order.refunded` sets `status = refunded` on the payment with that id only; an unknown id changes nothing |
| Properties.UpsertRedelivery | src/app/api/webhooks/polar/route.ts:42-63 | applying a subscription upsert event twice gives the database of applying it once, apart from `updated_at` |
| Properties.UpsertOfCarriedPayload | src/app/api/webhooks/polar/route.ts:54-63 | an upsert whose row already holds the event's status, period and cancel flag changes only `updated_at`, or nothing |
| Properties.CancelRedelivery | src/app/api/webhooks/polar/route.ts:117-131 | a second `subscription.canceled` changes only `updated_at` |
| Properties.RevokeRedelivery | src/app/api/webhooks/polar/route.ts:133-146 | a second `subscription.revoked` changes only `updated_at` |
| Properties.RefundRedelivery | src/app/api/webhooks/polar/route.ts:102-114 | a second `order.refunded` changes only `updated_at` |
| Properties.OrderRedelivery | src/app/api/webhooks/polar/route.ts:68-93 | a second `order.created` or `order.paid` changes nothing at all |
| Properties.RedeliveryIsIdempotent | src/app/api/webhooks/polar/route.ts:11-164 | redelivering any event after it was applied changes nothing beyond `updated_at`, whether or not the second attempt meets a database failure |
| Properties.TrialCanceledThenRevoked | src/app/api/webhooks/polar/route.ts:117-146 | a trial created, canceled, then revoked is `trialing` (active), then `canceled` with `cancel_at_period_end` (inactive per `hasActiveSubscription`), then `revoked` keeping the flag |
| Polar.DigitChar | src/lib/polar.ts:18 | the character printed for a digit is a decimal digit denoting it |
| Polar.DigitValue | src/lib/polar.ts:18 | reading a digit character gives the digit that prints as it |
| Polar.Decimal | src/lib/polar.ts:18 | the whole-dollar part printed by `toFixed` is a non-empty numeral without a leading zero |
| Polar.DecimalRoundTrip | src/lib/polar.ts:18 | reading the printed whole-dollar numeral back gives the number |
| Polar.FormatCurrency | src/lib/polar.ts:14-19 | "Free" exactly for zero cents; otherwise `$`, a minus sign exactly for negative cents, a whole-dollar numeral without a leading zero, a point and two digits |
| Polar.CurrencyRoundTrip | src/lib/polar.ts:14-19 | the formatted amount parses back to exactly the cents it was made from |
| Polar.FormatCurrencyInjective | src/lib/polar.ts:14-19 | two amounts format alike only when they are equal |
| Polar.FormatCurrencyExamples | src/lib/polar.ts:9-19 | 0 gives "Free", 1000 gives "$10.00", 2999 gives "$29.99" |
| Polar.FormatMaybeCurrency | src/lib/polar.ts:15 | `formatCurrency` of a possibly undefined amount is "Free" exactly for undefined or zero, and is otherwise exactly `formatCurrency`'s text for the amount, which parses back to it |
| Polar.ChargedCents | src/lib/polar.ts:30 | a present non-zero `priceAmount` is charged; a missing or zero `priceAmount` falls back to `amount_cents` |
| Polar.FormatPrice | src/lib/polar.ts:26-36 | "Pay what you want" exactly for a present price that is neither `fixed` nor `free`; "Free" exactly for a missing price, a `free` price, or a `fixed` price charging nothing; a `fixed` price prints exactly `formatCurrency` of `priceAmount`, or of `amount_cents` when `priceAmount` is falsy, so a charged amount's text parses back to the charged cents |
| Polar.HasActiveSubscription | src/lib/polar.ts:39-41 | true exactly for `active` and `trialing` |
| Polar.InactiveStatuses | src/lib/polar.ts:39-41 | `canceled`, `revoked`, `past_due` and a missing status grant no access |
| Webhook.BillingStore.constructor | src/db/schema.ts:5-41 | a database over a valid product catalog, with no subscriptions or payments and both sequences at 1, satisfies the schema |
| Webhook.BillingStore.UpsertSubscription | src/app/api/webhooks/polar/route.ts:42-63 | the insert-or-update leaves the tables as `Reconcile.UpsertSubscription` says, or unchanged with its error, and keeps the schema's constraints |
| Webhook.BillingStore.CancelSubscription | src/app/api/webhooks/polar/route.ts:120-127 | the cancel update leaves the tables as `Reconcile.CancelSubscription` says and keeps the schema's constraints |
| Webhook.BillingStore.RevokeSubscription | src/app/api/webhooks/polar/route.ts:136-142 | the revoke update leaves the tables as `Reconcile.RevokeSubscription` says and keeps the schema's constraints |
| Webhook.BillingStore.RecordPayment | src/app/api/webhooks/polar/route.ts:71-93 | the lookup that sets the local `subscriptionId`, then the insert, leave the tables as `Reconcile.RecordPayment` says, or unchanged with its error, and keep the schema's constraints |
| Webhook.BillingStore.RefundPayment | src/app/api/webhooks/polar/route.ts:106-112 | the refund update leaves the tables as `Reconcile.RefundPayment` says and keeps the schema's constraints |
| Webhook.BillingStore.OnPayload | src/app/api/webhooks/polar/route.ts:8-165 | handling an event leaves the tables as `Reconcile.OnPayload` says and keeps the schema's constraints; an error is reported exactly when the branch's statement failed |

## Left out

- Signature verification, raw-body handling and the `Webhooks` wrapper of `@polar-sh/nextjs` (route.ts:1-7, 168-173): foreign code. The handler receives an already verified event.
- The `api` Polar client (src/lib/polar.ts:4-7) and its callers: network calls through a foreign SDK.
- The database connection (src/lib/db.ts is not part of this model): `BillingStore` stands for the database.
- Logging (`console.log`, `console.error`): no effect on state. `BillingStore.OnPayload` returns the error the catch-all would log.
- `Number(sub.product_id)` (route.ts:46): the product id is an integer copied from the payload. JavaScript's conversion of a non-numeric id to `NaN`, and the database's refusal of it, are not modelled.
- The empty `subscription_cycle` branch (route.ts:96-98) and the order's `billing_reason`: they have no effect.
- Concurrency between deliveries, including the non-atomic lookup-then-insert of the order branch (route.ts:75-93): one event is handled at a time.
- Serial sequences advance only when an insert succeeds. PostgreSQL also consumes a value on an insert that fails after drawing it, or on an upsert that turns into an update. Ids therefore stay increasing and unique, but gaps are not modelled. In consequence PostgreSQL exhausts the `integer` sequence sooner than the model does, and once it is exhausted even an upsert that would only update an existing row fails (PostgreSQL draws the id before it detects the conflict), whereas the model refuses such an upsert only when its own counter is out of range.
- Which error PostgreSQL reports first when a statement breaks several constraints: the model checks values, then the sequence, then the unique key, then the reference. Every error has the same effect after the catch-all.
- Timestamps are integers (milliseconds). `new Date` of an invalid input (`Invalid Date`) is not modelled. One `now` serves every `new Date()` of one delivery, and also the database clock: the `defaultNow()` of `created_at` and `updated_at` on an insert (src/db/schema.ts:27-28, 39-40) is the database server's time, while the conflict update and the cancel, revoke and refund updates write the application's `new Date()` (route.ts:61, 110, 125, 140). `Schema.NewSubscription` and `Schema.NewPayment` take the same `now`, so the model treats the two clocks as one.
- Reconcile.UpsertSubscription, Reconcile.RecordPayment: refuse every string longer than its `varchar` width. PostgreSQL truncates and stores a value whose excess characters are all spaces: an order whose `status` is "paid" followed by 60 spaces is recorded there, but refused by the model.
- `varchar` widths count characters of `seq<char>`. PostgreSQL counts code points, JavaScript counts UTF-16 units, and the model does not distinguish them.
- Polar.FormatCurrency: models whole cents only. The source computes `cents / 100` in double precision. From 2^46 · 100 = 7036874417766400 cents in magnitude, that quotient is no longer exact to the cent, and `toFixed(2)` can print a different amount. For example, 7036874417766401 cents prints as "$70368744177664.02". So `Polar.CurrencyRoundTrip` and `Polar.FormatCurrencyInjective` hold for the source only below that bound. Also not modelled: `toFixed` rounding of fractional cents, exponent notation at or above 1e21, and a `NaN` argument. An undefined argument is modelled by `Polar.FormatMaybeCurrency`.
- Polar.FormatPrice: `price` is a record with `amountType`, `priceAmount` and `amount_cents`. Falsy non-null values of other types are not modelled.
- UI components and pages (pricing, dashboard, checkout, product card, header, layout, button): presentation with no state to verify.
