# Webhook ledger, event router and GHL provisioning — a Dafny model

This project models the sequential core of the WiseGave order-management
service, a NestJS application. The service receives Polar payment webhooks
and provisions GoHighLevel (GHL) accounts. The model covers four parts:

- **Ingress** (`Ingress`). `POST /webhooks/polar` decodes a body that
  arrives as text. An event without an id gets the id
  `<type>_<timestamp>_<data.id or unknown>`. Every decoded event object is
  acknowledged with `received: true`. Only an unparseable text body is
  answered with `received: false`.
- **Ledger** (`Ledger`). `processWebhook` is keyed by event id.
  - A known id returns the stored row; nothing runs again.
  - A new id is saved `pending`, routed, and then saved `processed` (with
    the handler's result and the time) or `failed` (with the error message,
    which is rethrown).
- **Router and handlers** (`EventRouter`, `Handlers`, `Entities`).
  - The switch of `processWebhookEvent` over the 31 event-type names.
  - The customer, order and refund handlers: small transitions over an
    in-memory store of orders and customers.
  - `findOrCreateCustomer`, with its placeholder customer
    `customer_<id>@polar.temp`.
- **Signature** (`WebhookSignature`). The `t=<secs>,v1=<hex>` header parser,
  the replay-tolerance check and the signature comparison. HMAC-SHA256 is a
  function parameter. The clock is a parameter.
- **Provisioning** (`Provisioning`). The `GhlService` operations:
  - `createAccount` (location, then user, then welcome email);
  - `createAccountFromOrder` (splits the name);
  - `createUserInLocation`, `createLocation`;
  - `deleteUser`, `deleteLocation`, `deleteAccount`.

  Every remote answer is an input. Each operation returns its response
  object and the calls it made.

Supporting modules:

- `Wrappers`: `Option` and `Result`.
- `JsText`: the JavaScript string operations the code relies on — `trim`,
  `split`/`join` on one character, `${n}` for integers, and `parseInt(s, 10)`.
- `JsonValue`: untyped payload values, with truthiness, `||`, `?.`,
  template rendering and object spread.

The persistence layer (TypeORM over MySQL) is modelled by the effects that
the handlers rely on:

- A table is a sequence, and a row's id is its position.
- `findOne` returns the earliest-inserted row that matches (MySQL itself
  promises no particular one; see "## Left out").
- Assigning `undefined` to a column and saving leaves the column unchanged.
- An `undefined` member of a JSON column is dropped.
- `currency` defaults to `USD` on insert.
- The unique `email` column of `customers` rejects a duplicate insert.

### Behaviour a reader may not expect

- Subscription events change nothing. Every subscription handler
  (`src/modules/webhooks/webhooks.service.ts:214-253`) only echoes the
  subscription id; a cancelled, revoked or uncancelled subscription touches
  no order and no GHL account. `WebhooksService` never calls `GhlService`.
- `order.paid` makes no remote call and sets `completed` whatever the order's
  prior status; no status transition is ever refused.
- No signature is checked on the way in. Nothing calls
  `WebhookSignatureUtil.verify`: the controller only reads the
  `x-polar-signature` header and passes it on to be stored. The verifier is
  modelled on its own.
- The customer lookup by provider id is written with PostgreSQL path syntax
  against a MySQL database; see "## Findings".

## Model

| member | source | states |
|---|---|---|
| JsText.Split | src/modules/webhooks/utils/webhook-signature.util.ts:27-31 | `split` on one character gives at least one piece, no piece holds the separator, and joining the pieces gives the input back |
| JsText.SplitJoin | src/modules/webhooks/utils/webhook-signature.util.ts:27-31 | splitting a join of separator-free pieces gives the pieces back (the inverse direction of `Split`) |
| JsText.Trim | src/modules/ghl/ghl.service.ts:279 | `trim` returns a slice `s[i..j]` of its input with only white space outside it and none at either end of it; trimmed text is returned unchanged |
| JsText.TrimIdempotent | src/modules/ghl/ghl.service.ts:279 | trimming twice gives what trimming once gives |
| JsText.ParseIntDecimal | src/modules/webhooks/utils/webhook-signature.util.ts:33 | `parseInt(s, 10)` reads back exactly the integer that `${n}` wrote, negative values included |
| Entities.FromWire | src/modules/database/entities/webhook.entity.ts:4-55 | a string names an event type exactly when some member's wire value equals it; otherwise no member has that value |
| Entities.FromWireToWire | src/modules/database/entities/webhook.entity.ts:4-55 | every member's wire value decodes back to that member |
| Entities.WireNamesDistinct | src/modules/database/entities/webhook.entity.ts:4-55 | no two members share a wire value |
| Handlers.FindOrCreateCustomer | src/modules/webhooks/webhooks.service.ts:426-449 | (intended lookup) a customer whose metadata `polar_customer_id` equals the provider id is returned, and a missing or `null` id, which binds SQL NULL, matches no customer; with the store unchanged; otherwise exactly one `Polar Customer` with email `customer_<id>@polar.temp` and that id in metadata is appended; the insert fails when that email is taken |
| Handlers.FindOrCreateCustomerIsStable | src/modules/webhooks/webhooks.service.ts:426-449 | with the intended lookup, a second lookup of the same id returns the customer the first returned and changes nothing; for a missing or `null` id the second lookup tries the same placeholder insert and fails on the unique email |
| Handlers.FindOrCreateCustomerAsWritten | src/modules/webhooks/webhooks.service.ts:428-433 | as written, the lookup fails with MySQL's invalid-path error exactly when the customer table has a row |
| Handlers.AsWrittenSecondLookupFails | src/modules/webhooks/webhooks.service.ts:428-448 | as written, the placeholder inserted by the first lookup makes every later lookup fail |
| Handlers.NamePieces | src/modules/webhooks/webhooks.service.ts:168-169 | `data.name?.split(' ')` throws `split is not a function` exactly for a name that is neither nullish nor a string; a string name always yields a first word without a space that, with the rest, rebuilds the name |
| Handlers.HandleCustomerCreated | src/modules/webhooks/webhooks.service.ts:157-182 | an existing customer with the payload's email is returned untouched; otherwise it throws exactly when the name is neither nullish nor a string, and else one customer is appended carrying the email, the provider id in metadata, the first word of the name (else `""`), the rest of the name (else the whole name, else `""`) and the truthy organisation (else `""`); orders are untouched |
| Handlers.HandleCustomerUpdated | src/modules/webhooks/webhooks.service.ts:184-199 | with no customer of that email nothing changes and `customerId` is undefined; otherwise it throws exactly when the name is neither nullish nor a string, and else only that customer changes: a non-empty first word, a non-empty rest (else the whole name) and a truthy organisation replace first name, last name and business name, anything else keeps the old value; the result is `{customerId, polarCustomerId}` |
| Handlers.HandleCustomerDeleted | src/modules/webhooks/webhooks.service.ts:201-205 | the store is unchanged; the result is `{polarCustomerId, action: 'deleted'}` |
| Handlers.HandleCustomerStateChanged | src/modules/webhooks/webhooks.service.ts:207-210 | the store is unchanged; the result echoes the id and the state |
| Handlers.SubscriptionAck | src/modules/webhooks/webhooks.service.ts:214-253 | a subscription handler changes nothing and returns the subscription id next to its own key |
| Handlers.HandleOrderCreated | src/modules/webhooks/webhooks.service.ts:257-281 | exactly one `pending` order is appended for the found-or-created customer, with checkout id `data.id`, product id, amount, the currency or `USD` when undefined, no notes, the subscription id when truthy (else null), and metadata holding the payload's metadata members plus `checkout_id`, `subscription_id` and `custom_field_data` exactly when defined; earlier orders are kept; it fails exactly when the customer step fails |
| Handlers.HandleOrderUpdated | src/modules/webhooks/webhooks.service.ts:283-300 | only the matching order's metadata changes: the payload's metadata overrides, other keys survive, no other key appears, and `subscription_id` is present iff the payload has one, with its value |
| Handlers.HandleOrderPaid | src/modules/webhooks/webhooks.service.ts:302-326 | the matching order becomes `completed` with the payload's amount and currency, and only when the payload's subscription id is truthy and its own is not does it take that id and add it to metadata; every other column is unchanged; with no match the store is unchanged; the result is `{orderId, polarOrderId: data.id, status: 'paid'}`, with `orderId` undefined when no order matches |
| Handlers.HandleOrderRefunded | src/modules/webhooks/webhooks.service.ts:328-342 | the matching order, and only it, becomes `refunded` with note `Order refunded`; the result is `{orderId, polarOrderId: data.id, status: 'refunded'}`, with `orderId` undefined when no order matches |
| Handlers.HandleRefundCreated | src/modules/webhooks/webhooks.service.ts:346-366 | the order found by `data.order_id` becomes `refunded`, noted `Refunded: <reason>`; its metadata keeps every other key and holds `refund_id`, `refund_amount`, `refund_reason` equal to the refund's id, amount and reason (absent when undefined); every other column is unchanged |
| EventRouter.Route | src/modules/webhooks/webhooks.service.ts:77-152 | a member of the event-type set has no case exactly when it is a customer-seat event |
| EventRouter.SeatEventsByName | src/modules/database/entities/webhook.entity.ts:15-18 | the seat events are exactly the members whose wire value starts with `customer_seat.` |
| EventRouter.SubscriptionEventsByName | src/modules/database/entities/webhook.entity.ts:26-33 | the subscription events are exactly the members whose wire value starts with `subscription.` |
| EventRouter.RouteType | src/modules/webhooks/webhooks.service.ts:74-77 | a missing, non-string or unknown `type` falls to the default case; a known name is routed by its member |
| EventRouter.ProcessWebhookEvent | src/modules/webhooks/webhooks.service.ts:74-153 | a `type` equal to a member's wire name runs that member's case on `data`; any other `type` gets the default answer with no write |
| EventRouter.Dispatch | src/modules/webhooks/webhooks.service.ts:149-151 | the default case answers `Event received but not processed` and changes nothing; a routed handler throws on missing or null `data` |
| EventRouter.UnroutedIsInert | src/modules/webhooks/webhooks.service.ts:149-151 | every event without a case leaves the store as it was and never throws |
| EventRouter.NonWritingHandlersLeaveStore | src/modules/webhooks/webhooks.service.ts:368-419 | the refund-updated, product, benefit, grant, organisation, checkout, customer-deleted/state and subscription handlers never change the store, and throw only on nullish data |
| EventRouter.SubscriptionEventsAreInert | src/modules/webhooks/webhooks.service.ts:214-253 | every subscription event is acknowledged with its id and writes nothing |
| EventRouter.DispatchPreservesWellFormed | src/modules/webhooks/webhooks.service.ts:157-366 | every handler keeps row ids, order-to-customer references and unique customer emails intact |
| EventRouter.CustomerCreatedPreserves | src/modules/webhooks/webhooks.service.ts:157-182 | a new customer never duplicates an email |
| EventRouter.CustomerUpdatedPreserves | src/modules/webhooks/webhooks.service.ts:184-199 | an updated customer keeps the store consistent |
| EventRouter.OrderCreatedPreserves | src/modules/webhooks/webhooks.service.ts:257-281 | a new order refers to an existing customer, and a placeholder customer never duplicates an email |
| Ledger.PendingRecord | src/modules/webhooks/webhooks.service.ts:37-43 | the first save is `pending` with the whole event as payload and no result, error or time |
| Ledger.ProcessWebhook | src/modules/webhooks/webhooks.service.ts:25-69 | a known id returns its row with no write and no state change; a new id saves `pending` and then one final row differing only in status, result, error and time: on handler success `processed` with the handler's result, time `now`, no error, the handler's store, returned; on a throw `failed` with the message, no result or time, the store untouched, the message rethrown |
| Ledger.RedeliveryIsIdempotent | src/modules/webhooks/webhooks.service.ts:27-34 | a second call with the same event changes nothing, writes nothing and returns the row the first call left |
| Ledger.ProcessRecordsEventId | src/modules/webhooks/webhooks.service.ts:37-45 | after any call the ledger holds a row for the event's id |
| Ledger.ProcessKeepsIdsUnique | src/modules/webhooks/webhooks.service.ts:26-45 | the ledger keeps at most one row per event id |
| Ledger.ProcessLeavesNothingPending | src/modules/webhooks/webhooks.service.ts:49-67 | once a call returns or throws, no row is still `pending` |
| Ledger.ProcessPreservesStore | src/modules/webhooks/webhooks.service.ts:49-50 | processing keeps the business tables consistent |
| Ledger.UnroutedEventIsLoggedOnly | src/modules/webhooks/webhooks.service.ts:149-151 | an unrouted event is logged `processed` with the default message and its time, and changes no business row |
| Ingress.WithIdentity | src/modules/webhooks/webhooks.controller.ts:79-83 | an event keeps a truthy id; otherwise it gets `<type>_<timestamp>_<data.id or unknown>`, which is always truthy |
| Ingress.Receive | src/modules/webhooks/webhooks.controller.ts:49-112 | an unparseable text body gets `{received: false, eventId: 'unknown'}` and changes nothing; a decoded non-object makes the controller throw; a non-text `null` body throws in `Object.keys` before anything else; every decoded event object is processed and acknowledged with `received: true` and its id |
| Ingress.AcknowledgedEvenWhenHandlerFails | src/modules/webhooks/webhooks.controller.ts:93-111 | every decoded event object is acknowledged with `received: true`, and when its handler failed the last ledger row is `failed` |
| Ingress.RedeliveryIsDeduplicated | src/modules/webhooks/webhooks.controller.ts:79-95 | delivering the same body twice, with or without an id, gives the same reply and no further change |
| Ingress.FallbackIdsCollide | src/modules/webhooks/webhooks.controller.ts:79-83 | two id-less events with the same type, timestamp and `data.id` share one ledger id, so the second is dropped whatever else differs |
| WebhookSignature.ParseSignature | src/modules/webhooks/utils/webhook-signature.util.ts:22-44 | an absent or empty header gives null; any parsed result has a non-zero timestamp and a non-empty signature |
| WebhookSignature.AbsorbAllIsLastOccurrence | src/modules/webhooks/utils/webhook-signature.util.ts:30-37 | the timestamp and the signature come from the last `t` and the last `v1` part; other keys are ignored |
| WebhookSignature.ParseSignatureSpec | src/modules/webhooks/utils/webhook-signature.util.ts:22-44 | the parse succeeds exactly when the last `t` value reads as a non-zero integer and the last `v1` value is non-empty, and then it returns those values |
| WebhookSignature.ParseFormat | src/modules/webhooks/utils/webhook-signature.util.ts:22-44 | the header `t=<n>,v1=<sig>` parses back to `(n, sig)` for any non-zero `n` and any non-empty `sig` without separators |
| WebhookSignature.SafeCompare | src/modules/webhooks/utils/webhook-signature.util.ts:94-108 | different lengths give false; otherwise the result is true iff the strings are equal |
| WebhookSignature.ConstantTimeEquals | src/modules/webhooks/utils/webhook-signature.util.ts:99-107 | a comparison that visits every position returns true iff the strings are equal |
| WebhookSignature.SafeCompareBytes | src/modules/webhooks/utils/webhook-signature.util.ts:94-108 | the length test followed by the position-by-position comparison agrees with `SafeCompare` and is string equality |
| WebhookSignature.Verify | src/modules/webhooks/utils/webhook-signature.util.ts:54-80 | an unparseable header is an error; a difference above the tolerance is an error, and exactly the tolerance is accepted; otherwise the result is true iff HMAC(secret, `${t}` + body) equals the signature |
| WebhookSignature.VerifyDefault | src/modules/webhooks/utils/webhook-signature.util.ts:54-80 | without `toleranceSeconds` the window is 300 seconds: an error beyond it, and inside it true iff the HMAC matches |
| WebhookSignature.VerifyAcceptsGenuine | src/modules/webhooks/utils/webhook-signature.util.ts:74-79 | a header signed over the body within the tolerance verifies |
| WebhookSignature.VerifyRejectsTamperedBody | src/modules/webhooks/utils/webhook-signature.util.ts:74-79 | for an injective HMAC, a signature made for one body fails for any other body |
| Provisioning.AccountName | src/modules/ghl/ghl.service.ts:124 | the business name when non-empty, else `<first> <last>` trimmed |
| Provisioning.CreateAccountFirstName | src/modules/ghl/ghl.service.ts:128 | `createAccount` names the user by the first name when non-empty, else by the business name |
| Provisioning.CreateAccountLastNameIsLastName | src/modules/ghl/ghl.service.ts:129 | both branches of the last-name expression give the last name defaulted to `""` |
| Provisioning.LocationIdOf | src/modules/ghl/ghl.service.ts:172-173 | the location id is `locationId`, falling back to `id` |
| Provisioning.UserIdOf | src/modules/ghl/ghl.service.ts:221 | the user id is `id`, falling back to `userId` |
| Provisioning.ErrorText | src/modules/ghl/ghl.service.ts:263 | the failure message is the response's message when non-empty, else the error's own |
| Provisioning.CreateAccount | src/modules/ghl/ghl.service.ts:112-266 | the location is posted first; a remote failure or a missing location id gives `success: false` with email and message; without a location id the user is never posted; a failed user post gives `success: false` with its error text after exactly the location and user posts; success means both posts answered, with `id == accountId ==` user id, the created location id, and user post and welcome email made in that order |
| Provisioning.EmailOutcomeIsIgnored | src/modules/ghl/ghl.service.ts:228-240 | the welcome email's outcome never changes the response |
| Provisioning.MissingUserIdStillSucceeds | src/modules/ghl/ghl.service.ts:221-249 | a user post answered without any id is still a success, with `id` and `accountId` undefined |
| Provisioning.CreateAccountFromOrder | src/modules/ghl/ghl.service.ts:272-290 | the account is created from a first name without spaces and a last name that rejoin to the trimmed order name (`User` and `""` for a blank name); the location is named by the business, else the trimmed name, else `User` |
| Provisioning.OrderLocationName | src/modules/ghl/ghl.service.ts:272-290 | the sub-account for an order is named by the business name, else the trimmed customer name, else `User` |
| Provisioning.OrderNamesRejoin | src/modules/ghl/ghl.service.ts:279-281 | the first name has no space; a blank name gives `User` and `""`; otherwise first and last joined by one space give the trimmed name |
| Provisioning.OrderAccountNameIsTrimmedName | src/modules/ghl/ghl.service.ts:279-283 | without a business name, the sub-account for an order is named exactly the trimmed customer name |
| Provisioning.LocationUserFirstName | src/modules/ghl/ghl.service.ts:372 | `createUserInLocation` names the user by the business name when present, else by the first name |
| Provisioning.LocationUserLastName | src/modules/ghl/ghl.service.ts:373 | the user's last name is empty whenever a business name is present |
| Provisioning.CreateUserInLocation | src/modules/ghl/ghl.service.ts:356-434 | one user post into the given location; success iff it answered, with the user id, email and location id; else `success: false` with email and message |
| Provisioning.UserNamesDiffer | src/modules/ghl/ghl.service.ts:372-373 | with both a first name and a different business name, `createAccount` and `createUserInLocation` name the user differently |
| Provisioning.CreateAccountPostsLocation | src/modules/ghl/ghl.service.ts:112-351 | with a non-empty email and phone, `createAccount` posts the same location `createLocation` posts for the account name, and on a failed post both give the same failure, `createAccount` adding the email |
| Provisioning.CreateLocation | src/modules/ghl/ghl.service.ts:296-351 | email and phone are sent only when non-empty; success iff the post answered, with `id`, `accountId` and `locationId` all the extracted location id |
| Provisioning.DeleteUser | src/modules/ghl/ghl.service.ts:465-502 | one delete call; success iff it answered; the failure message follows the error |
| Provisioning.DeleteLocation | src/modules/ghl/ghl.service.ts:507-545 | one delete call; success iff it answered, reporting the location id |
| Provisioning.DeleteAccount | src/modules/ghl/ghl.service.ts:551-592 | each delete is made iff its id is non-empty; success iff both were made and both answered; otherwise the message reports `User: OK/Failed, Location: OK/Failed` |
| Provisioning.DeletesAreIndependent | src/modules/ghl/ghl.service.ts:566-580 | the calls made do not depend on either delete's outcome |

## Left out

- Logging, the NestJS module and dependency-injection wiring, and the
  read-only ledger queries (`findAll`, `findOne`, `findByEventType`,
  `findByStatus`). These are plain reads with no logic.
- Real HTTP, the mail service's template and transport, the configuration
  loader, and `getAccount`. They are foreign I/O. Remote answers are inputs,
  and the configuration is a `Config` value.
- The 2-second propagation wait in `createAccount`. It is timing only.
- The fixed GHL permission object sent with each new user. It is a constant
  with no logic, so `UserPayload` omits it.
- Concurrency. Two simultaneous deliveries of one id could both pass the
  lookup, because the `eventId` column is indexed but not unique. Calls are
  modelled one at a time.
- Where-clauses on `undefined`. TypeORM drops a where-key whose value is
  `undefined`, which makes `findOne` match any row. Lookups are modelled as
  plain equality. This only matters when `processWebhook` or a handler
  sees a missing id or email. Through the controller, the event id is
  always present.
- NOT NULL columns (`eventId`, `eventType`, customer names and email, and
  the order's `currency`), the 3-character limit on `currency`, and MySQL's
  rejection of a `type` outside the enum on insert. An explicit `null` in a
  NOT NULL column of a single-row insert is rejected in every SQL mode, for
  example `currency: null` in `order.created` or `email: null` in
  `customer.created`. Setting such a column to NULL in an update, an
  over-long `currency` and an unknown enum value are rejected in strict mode
  and coerced otherwise. The model stores such values and processes such
  events with the default result.
- Handlers.HandleOrderCreated: `currency: null` is stored as `null`, where
  MySQL rejects the order insert with "Column 'currency' cannot be null".
  The placeholder customer saved before that insert would stay written,
  and `Outcome.Threw` carries no store, so such a partial write cannot be
  expressed.
- Handlers.HandleOrderPaid: `currency: null` is stored as `null`, where
  MySQL in strict mode rejects the update.
- MySQL's text-to-number coercion when a JSON number is compared with a
  varchar column. Comparison is equality of JSON values.
- Arrays in payloads. JSON values are null, booleans, integers, strings and
  objects.
- Floating-point amounts and `parseInt` precision beyond the safe-integer
  range. Numbers are unbounded integers.
- String spread of a non-object `metadata`: `{...'ab'}` copies indexed
  characters. Only objects contribute members.
- Lone UTF-16 surrogates in signatures. Dafny strings hold scalar values, so
  UTF-8 encoding is injective there, and `timingSafeEqual` on equal-length
  text is equality.
- `WebhookSignatureUtil.getWebhookSecret` and `computeSignature`. They are an
  environment read and HMAC-SHA256, and the HMAC is a function parameter.
- The one-off scripts `process-stuck-order.ts` and `check-orders.ts`, and the
  thin CRUD services `orders.service.ts` and `customers.service.ts`.
- The `ghl*` order columns. No modelled operation writes them.
- Key comparison under MySQL collation. The connection sets `utf8mb4` without
  a collation, so the server's default (case- and accent-insensitive in
  common configurations) governs `where` comparisons and the unique index on
  `email`. `Ledger.FindByEventId`, `Handlers.OrderByCheckout`,
  `Handlers.CustomerByEmail` and `Handlers.EmailTaken` compare keys by exact
  equality, so `John@X.com` and `john@x.com` are different customers here.
- Which row `findOne` returns when several match. TypeORM adds `LIMIT 1`
  without `ORDER BY`, so MySQL may return any of them; the model returns the
  earliest-inserted one. When the key is unique among rows the choice does
  not arise.
- Handlers.HandleOrderCreated: the order path is modelled with the intended
  customer lookup (`Handlers.FindOrCreateCustomer`), not the failing one the
  code contains (see "## Findings"); `EventRouter.Dispatch`,
  `EventRouter.ProcessWebhookEvent`, `Ledger.ProcessWebhook` and
  `Ingress.Receive` inherit that choice for `order.created`.
- Handlers.FindOrCreateCustomer: `->>` yields unquoted text, and MySQL
  compares text with a number numerically, so a stored `"5"` matches an id
  of `5` there; the model compares JSON values, and `"5"` differs from `5`.
- Handlers.FindOrCreateCustomer: the duplicate-email error text
  `Duplicate entry '…' for key 'email'` is approximate; MySQL names the
  unique index TypeORM generated (`IDX_…`), not the column.
- Customer rows whose `metadata` is SQL NULL. Every customer this model
  holds carries a metadata document, which is what makes
  `Handlers.FindOrCreateCustomerAsWritten` fail on any non-empty table; a
  NULL row would be skipped by MySQL instead.

## Findings

| source | as written | input that shows it | evidently intended | confidence | as-written member | corrected member |
|---|---|---|---|---|---|---|
| src/modules/webhooks/webhooks.service.ts:428-433 | `customer.metadata->>'polar_customer_id' = :id` on MySQL (src/modules/database/database.module.ts:13); MySQL reads the right operand of `->>` as a JSON path, and a path without a leading `$` is rejected with "Invalid JSON path expression" on the first row whose metadata is not NULL | two `order.created` events for the same `customer_id` on an empty customer table: the first inserts the placeholder, the second fails in the lookup, so its webhook row is `failed` and no order is created | `metadata->>'$.polar_customer_id' = :id`: find the customer whose metadata member equals the id | not executed; high that MySQL rejects the path | Handlers.FindOrCreateCustomerAsWritten, Handlers.AsWrittenSecondLookupFails | Handlers.FindOrCreateCustomer, Handlers.FindOrCreateCustomerIsStable |
