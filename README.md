# LifeSync Pro backend — a Dafny model

This project models the backend core of LifeSync Pro, an Express/PostgreSQL
site that sells subscription plans. It covers three parts:

- **The HTTP handlers** that decide responses. These are checkout and
  customer-portal sessions with the payment provider, the pricing listing,
  the contact form, newsletter subscription and unsubscription, and the
  required-field guards of the game, affiliate and AI-assistant endpoints.
- **The storage layer** `DatabaseStorage`. It reads and writes the users,
  contacts, newsletters, subscriptions and payments tables.
- **The schema.** This covers the table columns and their defaults, the
  unique, primary-key and foreign-key constraints, the insert schemas that
  validate request bodies and strip server-owned fields, and the static
  `PRICING_PLANS` table.

Modules, in dependency order:

| file | module | contents |
|---|---|---|
| wrappers.dfy | `Wrappers` | `Option`, `Result` |
| json.dfy | `Json` | the values of a parsed JSON body, JavaScript truthiness, field access (`undefined` when absent) |
| tables.dfy | `Tables` | table semantics: lookup of the first row with a key, unique keys, filtering by a column, `ORDER BY … DESC` as an insertion sort proved to be a sorted permutation |
| schema.dfy | `Schema` | row and insert-record datatypes, row builders with the column defaults, table invariants, insert-schema parsing, `PRICING_PLANS` |
| storage.dfy | `Storage` | insert/update operations as functions on row sequences, which fail the way the database would; `class DatabaseStorage`, whose fields are the five tables; the catalogue listing as a predicate on rows |
| pricing.dfy | `Pricing` | the grouping loop of `GET /api/pricing` as a method over a map, proved against a declarative grouping function |
| routes.dfy | `Routes` | the handlers: a handler that writes to the database is a method on `DatabaseStorage`, proved against a function giving the response and the new table |

Values the database generates are parameters. `gen_random_uuid()` becomes the
parameter `id` and `defaultNow()` becomes `now`. Calls to the payment
provider are function parameters (`create`), and the model records the
parameters each call is given.

An insert appends the row, or fails the way PostgreSQL rejects it:

- `UniqueViolation` for a repeated primary key or unique column;
- `ForeignKeyViolation` for a `user_id` that names no user;
- `NumericOutOfRange` for a payment amount outside 32 bits.

An update with nothing to set fails with `NoValuesToSet`, because Drizzle
refuses to issue it.

Newsletter re-subscription is modelled twice. The handler marks the branch for
an unsubscribed address "Re-subscribe" (server/routes.ts:178) and answers
"Welcome back! You've been re-subscribed." (server/routes.ts:180). The code in
that branch, however, inserts a second row for the address, which the unique
`email` column refuses. `SubscribeAsWritten` and `PostNewsletterAsWritten`
model the code as written, and "## Findings" records the discrepancy.
`Subscribe` and `PostNewsletter` model the evident intent: the existing row is
marked subscribed again.

## Model

| member | source | states |
|---|---|---|
| Tables.FirstWithKey | server/storage.ts:53-56 | the position of the first row whose key matches; none exactly when no row matches |
| Tables.LookupByKey | server/storage.ts:94-97 | `const [row] = select … where key = k`: the first matching row in insertion order, or nothing exactly when no row matches |
| Tables.LookupUnique | server/storage.ts:53-66 | under a unique key, the lookup returns the one row with that key |
| Tables.UniqueKeyAppend | shared/schema.ts:9-11 | appending a row with an unused key keeps the key unique |
| Tables.WithKey | server/storage.ts:125-127 | `WHERE column = k`: exactly the rows with that key, with their multiplicities |
| Tables.InsertNewestFirstCorrect | server/storage.ts:84-86 | inserting into a newest-first list adds exactly that row and keeps the order |
| Tables.SortNewestFirstCorrect | server/storage.ts:84-86 | `ORDER BY … DESC` yields a permutation of the rows, ordered newest first |
| Schema.UserRow | shared/schema.ts:8-18 | the stored user carries the given id and creation time and the caller's username, password, email, first and last name, avatar URL and customer id |
| Schema.SubscriptionRow | shared/schema.ts:21-32 | the stored subscription keeps the caller's user, provider subscription and price ids and period bounds; a given plan, status and cancelAtPeriodEnd are stored, and absent ones default to "free", "active" and false |
| Schema.ContactRow | shared/schema.ts:35-43 | a stored contact always has status "new", and the caller's name, email, subject and message |
| Schema.NewsletterRow | shared/schema.ts:46-51 | a stored newsletter row is always subscribed |
| Schema.PaymentRow | shared/schema.ts:54-63 | the stored payment keeps the caller's user, payment-intent id, amount in cents, status and description; a given currency is stored and an absent one defaults to "usd" |
| Schema.ContactIssues | shared/schema.ts:96-100 | the contact body fails validation exactly when name, email or message is not a string, or subject is neither absent, null nor a string; each field is listed exactly when it fails |
| Schema.ParseInsertContact | shared/schema.ts:96-100 | a valid body parses to its name, email, subject and message; an invalid one reports the offending fields |
| Schema.ParseInsertNewsletter | shared/schema.ts:102-106 | the body parses exactly when its email is a string, which becomes the record's email |
| Schema.ContactOmittedFieldsIgnored | shared/schema.ts:96-100 | status, id and createdAt in a contact body change nothing: the schema strips them |
| Schema.NewsletterOmittedFieldsIgnored | shared/schema.ts:102-106 | subscribed, id and createdAt in a newsletter body change nothing: the schema strips them |
| Schema.PricingPlansTable | shared/schema.ts:130-173 | the static table has exactly the keys basic, pro and enterprise, priced 29, 79 and 199, each with price id "price_" + key |
| Storage.AddUser | server/storage.ts:68-71 | the insert succeeds exactly when id, email and username are all unused; it appends the row and keeps the users table valid |
| Storage.AddContact | server/storage.ts:79-82 | the insert succeeds exactly when the id is unused, appends exactly one row and keeps the table valid |
| Storage.AddNewsletter | server/storage.ts:89-92 | the insert succeeds exactly when id and email are unused, appends exactly one row and keeps emails unique |
| Storage.AddSubscription | server/storage.ts:104-107 | the insert succeeds exactly when the id and the subscription reference are unused and the user exists; it keeps the table valid |
| Storage.AddPayment | server/storage.ts:120-123 | the insert succeeds exactly when the id is unused, the amount fits 32 bits and the user (if any) exists; it keeps the table valid |
| Storage.SetSubscribed | server/storage.ts:99-101 | rows with that email get the new flag; every other row and every other field is unchanged |
| Storage.SetSubscribedKeepsValid | server/storage.ts:99-101 | setting the flag keeps ids and emails unique |
| Storage.SetSubscribedUnknownEmail | server/storage.ts:99-101 | an email no row has leaves the table as it was |
| Storage.SetStripeCustomer | server/storage.ts:73-76 | an update with no customer id fails; otherwise only the first row with that id changes, and it becomes the old row with only its customer id replaced; nothing is returned when there is none |
| Storage.ApplyPatch | server/storage.ts:114-117 | each column the patch sets takes the new value and each column it leaves out keeps the old one; id and creation time are kept; an empty patch changes nothing |
| Storage.PatchSubscription | server/storage.ts:114-117 | only the row with the given id changes; there is no result when no row has it; an empty patch fails; a non-empty patch of an existing row succeeds exactly when the patched row's provider subscription id is not taken by another row and its user exists; validity is kept |
| Storage.ContactsNewestFirst | server/storage.ts:84-86 | all contacts, each as often as stored, newest first |
| Storage.PaymentsOfUser | server/storage.ts:125-127 | exactly the user's payments, newest first |
| Storage.UsersGrowKeepsReferences | shared/schema.ts:23 | foreign keys stay valid when no user id disappears |
| Storage.IsProductPriceListing | server/storage.ts:144-171 | the rows `listStripeProductsWithPrices(active)` may return: ordered by product id then unit amount, each row a product with that `active` flag joined with one of its active prices or, when it has none, with nulls, and every such pair present; every row's product has that flag and every joined price is active. Multiplicities are not fixed: a pair listed twice also satisfies it |
| Storage.DatabaseStorage.constructor | server/storage.ts:202 | a fresh, empty database is valid |
| Storage.DatabaseStorage.GetUser | server/storage.ts:53-56 | nothing exactly when no user has the id; otherwise that user |
| Storage.DatabaseStorage.GetUserByEmail | server/storage.ts:58-61 | nothing exactly when no user has the email; otherwise that user |
| Storage.DatabaseStorage.GetUserByUsername | server/storage.ts:63-66 | nothing exactly when no user has the username; otherwise that user |
| Storage.DatabaseStorage.CreateUser | server/storage.ts:68-71 | appends the new row and returns it, or fails and leaves users unchanged; the database stays valid |
| Storage.DatabaseStorage.UpdateUserStripeInfo | server/storage.ts:73-76 | sets the customer id of the user with that id, as `SetStripeCustomer`; fails when there is nothing to set |
| Storage.DatabaseStorage.CreateContact | server/storage.ts:79-82 | adds exactly one row, with status "new", returns it and leaves the other rows unchanged |
| Storage.DatabaseStorage.GetContacts | server/storage.ts:84-86 | every contact, newest first |
| Storage.DatabaseStorage.CreateNewsletterSubscription | server/storage.ts:89-92 | adds exactly one subscribed row and returns it, or fails on a repeated id or email and changes nothing |
| Storage.DatabaseStorage.GetNewsletterByEmail | server/storage.ts:94-97 | the row with that email, or nothing when there is none |
| Storage.DatabaseStorage.UnsubscribeNewsletter | server/storage.ts:99-101 | clears `subscribed` on the rows with that email only; everything else is unchanged |
| Storage.DatabaseStorage.ResubscribeNewsletter | server/routes.ts:177-181 | corrected: sets `subscribed` again on the rows with that email only; everything else is unchanged and the tables stay valid |
| Storage.DatabaseStorage.CreateSubscription | server/storage.ts:104-107 | appends the row with its defaults, or fails and changes nothing |
| Storage.DatabaseStorage.GetSubscriptionByUserId | server/storage.ts:109-112 | the user's first subscription in insertion order, or nothing exactly when the user has none |
| Storage.DatabaseStorage.UpdateSubscription | server/storage.ts:114-117 | changes only the row with the given id and returns it; returns nothing and changes nothing when no row has that id |
| Storage.DatabaseStorage.CreatePayment | server/storage.ts:120-123 | appends the row with currency defaulting to "usd", or fails and changes nothing |
| Storage.DatabaseStorage.GetPaymentsByUserId | server/storage.ts:125-127 | exactly the user's payments, newest first |
| Pricing.ProductIdsCover | server/routes.ts:119-129 | a product is grouped exactly when some row has it |
| Pricing.FirstPos | server/routes.ts:121-129 | the entry of a product is made from its first row |
| Pricing.PlanFor | server/routes.ts:121-137 | the entry for a product carries that product's id |
| Pricing.ProductIdsDistinct | server/routes.ts:121 | no product id is listed twice |
| Pricing.ProductIdsInFirstAppearanceOrder | server/routes.ts:119-140 | products are listed in the order of their first rows |
| Pricing.GroupIdsDistinct | server/routes.ts:119-140 | the grouped products have distinct ids |
| Pricing.GroupListsProduct | server/routes.ts:119-140 | a product is in the output exactly when some row has it |
| Pricing.PricesForAbsent | server/routes.ts:130-137 | a product with no rows has no prices |
| Pricing.PricesForAreTheProductsPricedRows | server/routes.ts:130-137 | a product's prices are exactly its rows that carry a price id, in row order |
| Pricing.PricesForUnpriced | server/routes.ts:130-137 | without priced rows a product has no prices |
| Pricing.ProductWithoutPricesListed | server/routes.ts:119-138 | a product whose rows all lack a price id is still listed, with an empty price list |
| Pricing.GroupedProductsAscending | server/storage.ts:167 | grouping the listing, ordered by product id, gives products in increasing id |
| Pricing.GroupedPricesAscending | server/storage.ts:167 | grouping the listing gives each product's prices in increasing unit amount, nulls last |
| Pricing.GroupedProductIsActive | server/storage.ts:144-171 | grouping the active listing yields only active products |
| Pricing.GroupedPriceIsActive | server/storage.ts:166 | every listed price is an active price of the product it is listed under |
| Pricing.ActiveProductGrouped | server/storage.ts:144-171 | every active product is listed, with or without an active price |
| Pricing.Group | server/routes.ts:119-140 | the grouped listing: one entry per product id, in order of first appearance, each carrying the prices of that product's priced rows |
| Pricing.GroupStep | server/routes.ts:120-138 | reading one more row adds its product if new and appends its price if it has one |
| Pricing.TracksStep | server/routes.ts:120-138 | one loop iteration keeps the map and its key order in step with the rows read |
| Pricing.GroupProducts | server/routes.ts:119-140 | the loop over a `Map` computes the declarative grouping |
| Routes.BaseUrl | server/routes.ts:95-97 | `${protocol}://${host}`, where each header that is absent or empty falls back on its own, to "https" and "localhost:5000"; its cases are proved in `BaseUrlFromHeaders` |
| Routes.BaseUrlFromHeaders | server/routes.ts:37-39 | with no headers the base is https://localhost:5000; with both headers it is protocol://host; with only the host it is https://host, and with only the protocol it is protocol://localhost:5000 |
| Routes.Guard | server/routes.ts:215-217 | a guard passes exactly when every check passes, otherwise it answers 400 with its message |
| Routes.EndpointGuard | server/routes.ts:212-338 | each guard's 400 with its own message, exactly when a required field fails: truthy game type and difficulty (play), truthy game id and a score not undefined (score), truthy partner id, message, user context or financial data, truthy goal description and a progress not undefined (analyze-progress) |
| Routes.ScoreZeroOrNullAccepted | server/routes.ts:228 | a score of 0 or null is accepted; an absent score is rejected |
| Routes.ProgressZeroOrNullAccepted | server/routes.ts:336 | a progress of 0 or null is accepted; an absent progress is rejected |
| Routes.PostCheckout | server/routes.ts:28-64 | a falsy price id or plan gives 400 and no session; otherwise the session has one line item (price, quantity 1), subscription mode, the success and cancel URLs on the base URL, the email and the plan; with both fields present, a provider error gives 500 with its message or the fallback |
| Routes.CheckoutLinksStayOnOrigin | server/routes.ts:37-52 | both links of a created session start with the request's base URL |
| Routes.PostCustomerPortal | server/routes.ts:86-109 | a falsy customer id gives 400 and no session; otherwise the session returns to base + "/dashboard"; every failure gives the generic 500 |
| Routes.GetPricing | server/routes.ts:112-150 | source "stripe", with the grouped catalogue, exactly when the query succeeded with rows; otherwise `PRICING_PLANS` with source "static"; always 200 |
| Routes.SubmitContact | server/routes.ts:153-165 | invalid input gives 400 with the offending fields and no row; valid input gives 201 and exactly one new row, status "new"; an insert error gives 500; validity is kept |
| Routes.ContactIgnoresServerFields | server/routes.ts:155-157 | a client cannot set a contact's status, id or creation time |
| Routes.PostContact | server/routes.ts:153-165 | the handler against the database computes `SubmitContact` |
| Routes.SubscribeAsWritten | server/routes.ts:168-193 | the handler as written: a body whose email is not a string gives 400 "Invalid email address"; every 400 and 500 answer leaves the table unchanged; validity is kept; it never answers 200, and after a 201 the address has a subscribed row |
| Routes.ResubscribeFailsAsWritten | server/routes.ts:177-181 | as written, an unsubscribed address asking again always gets 500 and the table is unchanged |
| Routes.ResubscribeFailsExample | server/routes.ts:179 | a one-row table with "a@b.c" unsubscribed: re-subscribing answers 500 |
| Routes.Subscribe | server/routes.ts:168-193 | the corrected handler: a non-string email gives 400; 400 and 500 leave the table unchanged; validity is kept |
| Routes.ResubscribeRestores | server/routes.ts:177-180 | corrected: an unsubscribed address is welcomed back with 200, its row subscribed again and nothing else changed |
| Routes.AlreadySubscribedRejected | server/routes.ts:174-176 | a subscribed address gets 400 and storage is unchanged, in both versions |
| Routes.NewAddressSubscribed | server/routes.ts:184-185 | a new address gets 201 and exactly one new subscribed row; both versions agree |
| Routes.SubscribeSucceedsLeavesSubscribed | server/routes.ts:168-193 | corrected: after a 200 or 201 the address is on the list, subscribed (for the code as written, `SubscribeAsWritten`'s own contract gives the same after its only success, the 201) |
| Routes.PostNewsletterAsWritten | server/routes.ts:168-193 | the handler as written, against the database, computes `SubscribeAsWritten` and keeps the database valid |
| Routes.PostNewsletter | server/routes.ts:168-193 | corrected: the handler against the database computes the corrected `Subscribe` |
| Routes.Unsubscribe | server/routes.ts:196-209 | a falsy email gives 400 and no change; otherwise 200, with only the rows of that email unsubscribed |
| Routes.UnsubscribeUnknownAddress | server/routes.ts:199-204 | an address not on the list still gets 200, and nothing changes |
| Routes.UnsubscribeThenSubscribeRoundTrip | server/routes.ts:168-204 | corrected: unsubscribing a subscribed address and subscribing it again answers "Welcome back" and restores the table exactly |
| Routes.UnsubscribeThenSubscribeFailsAsWritten | server/routes.ts:168-204 | as written: unsubscribing a subscribed address and subscribing it again answers 500 and leaves the address unsubscribed |
| Routes.PostUnsubscribe | server/routes.ts:196-209 | the handler against the database computes `Unsubscribe` |

## Left out

- Calls to the payment provider (creating checkout and portal sessions) are function parameters. Only the parameters passed and the answer used are modelled.
- `GET /api/checkout/session/:sessionId` and `GET /api/stripe/config` are not modelled. They only relay the provider's answer.
- `GET /api/calculators` and `GET /api/affiliates` are not modelled. They return constant lists.
- The AI endpoints are modelled only up to their required-field guards. The completion client (server/aiClient.ts) is not part of this model.
- The game id from `Math.random()` and the floating-point points `Math.min(score / 10, 150)` are not modelled.
- The raw SQL against the provider's mirrored tables is not executed. `listStripeProductsWithPrices` is the predicate `IsProductPriceListing` on its result rows. The other catalogue reads (`getStripeProduct`, `listStripeProducts`, `getStripePrice`, `listStripePrices`, `getStripePricesForProduct`, `getStripeSubscription`) are single queries with no logic of their own and are not modelled.
- Storage.IsProductPriceListing: how often each product/price pair appears is not fixed. The join yields each pair once, but a listing that repeats a pair also satisfies the predicate. The predicate is only ever a hypothesis, so what is proved from it holds of every listing it admits, the real one included.
- Text order in `ORDER BY p.id` is taken as code-point order (`StrLt`). The database's collation may differ.
- Connection failures, timeouts and other database availability errors are not modelled. Only constraint violations and the empty update are.
- PostgreSQL `text` columns refuse the character U+0000. The source then answers 500; `SubmitContact` and `Subscribe` accept such strings and answer 201.
- Routes.SubmitContact: the 400 details are Zod issue objects (code, expected, received, path, message). `InvalidFormReply.details` keeps only the names of the failing fields.
- Tables.LookupByKey: a `SELECT` without `ORDER BY` is taken to return rows in insertion order. PostgreSQL promises no order, so with several matching rows it may return any of them.
- Storage.DatabaseStorage.GetSubscriptionByUserId: `user_id` is not unique in the subscriptions table, and the query has no `ORDER BY`. The model returns the user's first subscription in insertion order; PostgreSQL may return any of the user's subscriptions.
- Concurrency is not modelled: the model is sequential. This includes the race between the newsletter lookup and the insert.
- Request bodies are JSON objects. A body that is not an object, and numbers that are not integers, are not represented.
- Routes.Unsubscribe: a truthy email that is not a string (a number, say) is taken to match no row. The database would compare its text form.
- Storage.SubscriptionPatch: `id` and `createdAt` cannot be set by an update. `Partial<Subscription>` would allow both.
- Storage.AddUser, Storage.AddSubscription, Storage.AddPayment: when several constraints fail at once, which error is reported is fixed by the model's check order. The database's order is not modelled.
- Password hashing, sessions and authentication are outside this core.

## Findings

| source | as written | input that shows it | evidently intended | confidence | as-written member | corrected member |
|---|---|---|---|---|---|---|
| server/routes.ts:179 | re-subscribing an address whose row has `subscribed = false` inserts a second row for the same email, which the unique `email` column (shared/schema.ts:48) refuses; the request falls into the generic 500 (server/routes.ts:190-191) and the address can never subscribe again | newsletters = [{id "n1", email "a@b.c", subscribed false}], body {"email": "a@b.c"} → 500 "Failed to subscribe to newsletter", table unchanged | update the existing row to `subscribed = true` and answer 200 "Welcome back! You've been re-subscribed." | not executed | Routes.ResubscribeFailsAsWritten, Routes.ResubscribeFailsExample, Routes.PostNewsletterAsWritten, Routes.UnsubscribeThenSubscribeFailsAsWritten | Routes.Subscribe, Routes.ResubscribeRestores, Routes.PostNewsletter, Routes.UnsubscribeThenSubscribeRoundTrip |
