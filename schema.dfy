/**
 * The application's relational schema: the five owned tables (users,
 * subscriptions, contacts, newsletters, payments), the values the database
 * fills in on insert, the constraints it enforces, the insert schemas that
 * validate request bodies, and the static pricing table.
 *
 * Generated primary keys (`gen_random_uuid()`) and insertion times
 * (`defaultNow()`) are not computed here: every insert receives them as the
 * parameters `id` and `now`.
 */
module Schema {
  import opened Wrappers
  import opened Json
  import opened Tables

  /** A point in time, as stored in a `timestamp` column. */
  type Timestamp = int

  datatype User = User(
    id: string,
    email: string,
    username: string,
    password: string,
    firstName: Option<string>,
    lastName: Option<string>,
    avatarUrl: Option<string>,
    stripeCustomerId: Option<string>,
    createdAt: Timestamp)

  datatype Subscription = Subscription(
    id: string,
    userId: string,
    stripeSubscriptionId: Option<string>,
    stripePriceId: Option<string>,
    plan: string,
    status: string,
    currentPeriodStart: Option<Timestamp>,
    currentPeriodEnd: Option<Timestamp>,
    cancelAtPeriodEnd: Option<bool>,
    createdAt: Timestamp)

  datatype Contact = Contact(
    id: string,
    name: string,
    email: string,
    subject: Option<string>,
    message: string,
    status: string,
    createdAt: Timestamp)

  datatype Newsletter = Newsletter(
    id: string,
    email: string,
    subscribed: bool,
    createdAt: Timestamp)

  datatype Payment = Payment(
    id: string,
    userId: Option<string>,
    stripePaymentIntentId: Option<string>,
    amount: int,
    currency: string,
    status: string,
    description: Option<string>,
    createdAt: Timestamp)

  // Columns used as keys, as first-class functions.
  function UserId(u: User): string { u.id }
  function UserEmail(u: User): string { u.email }
  function UserUsername(u: User): string { u.username }
  function SubscriptionId(s: Subscription): string { s.id }
  function SubscriptionUserId(s: Subscription): string { s.userId }
  function SubscriptionStripeId(s: Subscription): Option<string> { s.stripeSubscriptionId }
  function ContactId(c: Contact): string { c.id }
  function ContactCreatedAt(c: Contact): int { c.createdAt }
  function NewsletterId(n: Newsletter): string { n.id }
  function NewsletterEmail(n: Newsletter): string { n.email }
  function PaymentId(p: Payment): string { p.id }
  function PaymentUserId(p: Payment): Option<string> { p.userId }
  function PaymentCreatedAt(p: Payment): int { p.createdAt }

  // ---------------------------------------------------------------------------
  // Column defaults

  const DefaultPlan := "free"
  const DefaultSubscriptionStatus := "active"
  const DefaultContactStatus := "new"
  const DefaultCurrency := "usd"

  /** Bounds of a Postgres `integer` column (the payment amount in cents). */
  const Int4Min := -0x8000_0000
  const Int4Max := 0x7fff_ffff

  // ---------------------------------------------------------------------------
  // Insert records: the row minus what the insert schema omits. A field the
  // caller may leave out (a column with a default) is an Option; for a
  // nullable column with a default, the inner Option is the SQL null.

  datatype InsertUser = InsertUser(
    email: string,
    username: string,
    password: string,
    firstName: Option<string>,
    lastName: Option<string>,
    avatarUrl: Option<string>,
    stripeCustomerId: Option<string>)

  datatype InsertSubscription = InsertSubscription(
    userId: string,
    stripeSubscriptionId: Option<string>,
    stripePriceId: Option<string>,
    plan: Option<string>,
    status: Option<string>,
    currentPeriodStart: Option<Timestamp>,
    currentPeriodEnd: Option<Timestamp>,
    cancelAtPeriodEnd: Option<Option<bool>>)

  /** `insertContactSchema` omits id, createdAt and status. */
  datatype InsertContact = InsertContact(
    name: string,
    email: string,
    subject: Option<string>,
    message: string)

  /** `insertNewsletterSchema` omits id, createdAt and subscribed. */
  datatype InsertNewsletter = InsertNewsletter(email: string)

  datatype InsertPayment = InsertPayment(
    userId: Option<string>,
    stripePaymentIntentId: Option<string>,
    amount: int,
    currency: Option<string>,
    status: string,
    description: Option<string>)

  // ---------------------------------------------------------------------------
  // The row the database stores for an insert: the caller's values plus the
  // column defaults.

  function UserRow(id: string, now: Timestamp, u: InsertUser): (r: User)
    ensures r.id == id && r.createdAt == now
    ensures r.email == u.email && r.username == u.username && r.password == u.password
    ensures r.firstName == u.firstName && r.lastName == u.lastName && r.avatarUrl == u.avatarUrl
    ensures r.stripeCustomerId == u.stripeCustomerId
  {
    User(id, u.email, u.username, u.password, u.firstName, u.lastName, u.avatarUrl, u.stripeCustomerId, now)
  }

  function SubscriptionRow(id: string, now: Timestamp, s: InsertSubscription): (r: Subscription)
    ensures r.id == id && r.createdAt == now && r.userId == s.userId
    ensures r.stripeSubscriptionId == s.stripeSubscriptionId && r.stripePriceId == s.stripePriceId
    ensures r.currentPeriodStart == s.currentPeriodStart && r.currentPeriodEnd == s.currentPeriodEnd
    ensures s.plan.None? ==> r.plan == "free"
    ensures s.plan.Some? ==> r.plan == s.plan.value
    ensures s.status.None? ==> r.status == "active"
    ensures s.status.Some? ==> r.status == s.status.value
    ensures s.cancelAtPeriodEnd.None? ==> r.cancelAtPeriodEnd == Some(false)
    ensures s.cancelAtPeriodEnd.Some? ==> r.cancelAtPeriodEnd == s.cancelAtPeriodEnd.value
  {
    Subscription(
      id, s.userId, s.stripeSubscriptionId, s.stripePriceId,
      if s.plan.Some? then s.plan.value else DefaultPlan,
      if s.status.Some? then s.status.value else DefaultSubscriptionStatus,
      s.currentPeriodStart, s.currentPeriodEnd,
      if s.cancelAtPeriodEnd.Some? then s.cancelAtPeriodEnd.value else Some(false),
      now)
  }

  /** Every contact row starts as "new": the insert record has no status to set. */
  function ContactRow(id: string, now: Timestamp, c: InsertContact): (r: Contact)
    ensures r.status == "new"
    ensures r.id == id && r.createdAt == now
    ensures r.name == c.name && r.email == c.email && r.subject == c.subject && r.message == c.message
  {
    Contact(id, c.name, c.email, c.subject, c.message, DefaultContactStatus, now)
  }

  /** Every newsletter row starts subscribed: the insert record has no flag to set. */
  function NewsletterRow(id: string, now: Timestamp, n: InsertNewsletter): (r: Newsletter)
    ensures r.subscribed
    ensures r.id == id && r.email == n.email && r.createdAt == now
  {
    Newsletter(id, n.email, true, now)
  }

  function PaymentRow(id: string, now: Timestamp, p: InsertPayment): (r: Payment)
    ensures r.id == id && r.createdAt == now && r.amount == p.amount && r.userId == p.userId
    ensures r.stripePaymentIntentId == p.stripePaymentIntentId && r.status == p.status && r.description == p.description
    ensures p.currency.None? ==> r.currency == "usd"
    ensures p.currency.Some? ==> r.currency == p.currency.value
  {
    Payment(
      id, p.userId, p.stripePaymentIntentId, p.amount,
      if p.currency.Some? then p.currency.value else DefaultCurrency,
      p.status, p.description, now)
  }

  // ---------------------------------------------------------------------------
  // Table invariants the database enforces.

  /** `users`: primary key id; `email` and `username` are each unique. */
  ghost predicate UsersValid(users: seq<User>)
  {
    && UniqueKey(users, UserId)
    && UniqueKey(users, UserEmail)
    && UniqueKey(users, UserUsername)
  }

  /** `subscriptions`: primary key id; `stripe_subscription_id` unique when set; `user_id` references a user. */
  ghost predicate SubscriptionsValid(rows: seq<Subscription>, users: seq<User>)
  {
    && UniqueKey(rows, SubscriptionId)
    && UniqueWhenPresent(rows, SubscriptionStripeId)
    && forall i :: 0 <= i < |rows| ==> HasKey(users, UserId, rows[i].userId)
  }

  /** `contacts`: primary key id. */
  ghost predicate ContactsValid(rows: seq<Contact>)
  {
    UniqueKey(rows, ContactId)
  }

  /** `newsletters`: primary key id; `email` is unique. */
  ghost predicate NewslettersValid(rows: seq<Newsletter>)
  {
    UniqueKey(rows, NewsletterId) && UniqueKey(rows, NewsletterEmail)
  }

  /** `payments`: primary key id; `user_id`, when set, references a user; `amount` is a 32-bit integer. */
  ghost predicate PaymentsValid(rows: seq<Payment>, users: seq<User>)
  {
    && UniqueKey(rows, PaymentId)
    && forall i :: 0 <= i < |rows| ==>
         && (rows[i].userId.Some? ==> HasKey(users, UserId, rows[i].userId.value))
         && Int4Min <= rows[i].amount <= Int4Max
  }

  // ---------------------------------------------------------------------------
  // Insert schemas (`createInsertSchema(...).omit(...)`): a `text ... notNull()`
  // column is a required string, a nullable one may be absent or null, and
  // every other key of the body (including the omitted columns) is dropped.
  // A validation failure lists the paths of the offending fields.

  /** A required string field. */
  predicate RequiredString(body: Body, key: string)
  {
    Field(body, key).Str?
  }

  /** A nullable string field: absent, null or a string. */
  predicate NullableString(body: Body, key: string)
  {
    Field(body, key).Undefined? || Field(body, key).Null? || Field(body, key).Str?
  }

  /** The value of a nullable string field, null when absent. */
  function NullableValue(body: Body, key: string): Option<string>
  {
    if Field(body, key).Str? then Some(Field(body, key).s) else None
  }

  /** The fields of a contact body that fail `insertContactSchema`, in column order. */
  function ContactIssues(body: Body): (r: seq<string>)
    ensures r == [] <==> RequiredString(body, "name") && RequiredString(body, "email")
                         && NullableString(body, "subject") && RequiredString(body, "message")
    ensures forall f :: f in r ==> f in ["name", "email", "subject", "message"]
    ensures ("name" in r <==> !RequiredString(body, "name")) && ("email" in r <==> !RequiredString(body, "email"))
    ensures ("subject" in r <==> !NullableString(body, "subject")) && ("message" in r <==> !RequiredString(body, "message"))
  {
    (if RequiredString(body, "name") then [] else ["name"])
    + (if RequiredString(body, "email") then [] else ["email"])
    + (if NullableString(body, "subject") then [] else ["subject"])
    + (if RequiredString(body, "message") then [] else ["message"])
  }

  /** `insertContactSchema.parse(body)`. */
  function ParseInsertContact(body: Body): (r: Result<InsertContact, seq<string>>)
    ensures r.Failure? <==> ContactIssues(body) != []
    ensures r.Failure? ==> r.error == ContactIssues(body)
    ensures r.Success? ==>
              && r.value.name == Field(body, "name").s
              && r.value.email == Field(body, "email").s
              && r.value.subject == NullableValue(body, "subject")
              && r.value.message == Field(body, "message").s
  {
    if ContactIssues(body) != [] then Failure(ContactIssues(body))
    else Success(InsertContact(
      Field(body, "name").s, Field(body, "email").s, NullableValue(body, "subject"), Field(body, "message").s))
  }

  /** `insertNewsletterSchema.parse(body)`: only the email, which must be a string (any string). */
  function ParseInsertNewsletter(body: Body): (r: Result<InsertNewsletter, seq<string>>)
    ensures r.Success? <==> Field(body, "email").Str?
    ensures r.Success? ==> r.value.email == Field(body, "email").s
    ensures r.Failure? ==> r.error == ["email"]
  {
    if RequiredString(body, "email") then Success(InsertNewsletter(Field(body, "email").s))
    else Failure(["email"])
  }

  /** Whatever a contact body says about `status`, `id` or `createdAt` is dropped by the schema. */
  lemma ContactOmittedFieldsIgnored(body: Body, key: string, v: JsValue)
    requires key in {"status", "id", "createdAt"}
    ensures ParseInsertContact(body[key := v]) == ParseInsertContact(body)
  {
    var b := body[key := v];
    assert forall f :: f in {"name", "email", "subject", "message"} ==> Field(b, f) == Field(body, f);
  }

  /** Whatever a newsletter body says about `subscribed`, `id` or `createdAt` is dropped by the schema. */
  lemma NewsletterOmittedFieldsIgnored(body: Body, key: string, v: JsValue)
    requires key in {"subscribed", "id", "createdAt"}
    ensures ParseInsertNewsletter(body[key := v]) == ParseInsertNewsletter(body)
  {
    assert Field(body[key := v], "email") == Field(body, "email");
  }

  // ---------------------------------------------------------------------------
  // PRICING_PLANS, the static plan table, in its key order.

  datatype PricingPlan = PricingPlan(
    name: string,
    price: nat,
    priceId: string,
    features: seq<string>,
    popular: Option<bool>)

  const PricingPlans: seq<(string, PricingPlan)> := [
    ("basic", PricingPlan("Basic", 29, "price_basic",
      ["Finance tracking", "Up to 5 projects", "Basic analytics", "Email support", "Mobile app access"],
      None)),
    ("pro", PricingPlan("Pro", 79, "price_pro",
      ["Everything in Basic", "Unlimited projects", "Side hustle toolkit", "Advanced analytics",
       "Priority support", "Team collaboration", "Custom integrations"],
      Some(true))),
    ("enterprise", PricingPlan("Enterprise", 199, "price_enterprise",
      ["Everything in Pro", "White-label options", "Dedicated account manager", "Custom workflows",
       "SLA guarantee", "On-premise deployment", "Advanced security", "API access"],
      None))
  ]

  /** The static table has exactly the plans basic, pro and enterprise, at 29, 79 and 199. */
  lemma PricingPlansTable()
    ensures |PricingPlans| == 3
    ensures PricingPlans[0].0 == "basic" && PricingPlans[0].1.price == 29
    ensures PricingPlans[1].0 == "pro" && PricingPlans[1].1.price == 79
    ensures PricingPlans[2].0 == "enterprise" && PricingPlans[2].1.price == 199
    ensures forall i, j :: 0 <= i < j < |PricingPlans| ==> PricingPlans[i].0 != PricingPlans[j].0
    ensures forall i :: 0 <= i < |PricingPlans| ==> PricingPlans[i].1.priceId == "price_" + PricingPlans[i].0
  {
  }
}
