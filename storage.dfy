/**
 * The storage layer: `DatabaseStorage`, whose methods read and write the
 * five application tables. Each table is a sequence of rows in storage
 * order; each method's effect is stated through a pure table operation
 * defined here, which also carries the database's constraint checks
 * (primary keys, unique columns, foreign keys, the `integer` range).
 *
 * The read-only listing of products joined with prices, which the storage
 * layer runs as raw SQL against the billing provider's mirrored tables, is
 * described by the predicate `IsProductPriceListing`.
 */
module Storage {
  import opened Wrappers
  import opened Tables
  import opened Schema

  /** Why the database rejects a write. */
  datatype DbError =
    | UniqueViolation      // a primary key or unique column would repeat
    | ForeignKeyViolation  // a `user_id` names no user
    | NumericOutOfRange    // an `integer` column outside 32 bits
    | NoValuesToSet        // an update with nothing to set

  // ---------------------------------------------------------------------------
  // Inserts: `db.insert(t).values(v).returning()` appends the row or fails.

  function AddUser(users: seq<User>, row: User): (r: Result<seq<User>, DbError>)
    ensures r.Success? <==>
              !HasKey(users, UserId, row.id) && !HasKey(users, UserEmail, row.email)
              && !HasKey(users, UserUsername, row.username)
    ensures r.Success? ==> r.value == users + [row]
    ensures r.Success? && UsersValid(users) ==> UsersValid(r.value)
  {
    if HasKey(users, UserId, row.id) || HasKey(users, UserEmail, row.email)
       || HasKey(users, UserUsername, row.username)
    then Failure(UniqueViolation)
    else
      UniqueKeyAppend(users, UserId, row);
      UniqueKeyAppend(users, UserEmail, row);
      UniqueKeyAppend(users, UserUsername, row);
      Success(users + [row])
  }

  function AddContact(rows: seq<Contact>, row: Contact): (r: Result<seq<Contact>, DbError>)
    ensures r.Success? <==> !HasKey(rows, ContactId, row.id)
    ensures r.Success? ==> r.value == rows + [row]
    ensures r.Success? && ContactsValid(rows) ==> ContactsValid(r.value)
  {
    if HasKey(rows, ContactId, row.id) then Failure(UniqueViolation)
    else
      UniqueKeyAppend(rows, ContactId, row);
      Success(rows + [row])
  }

  function AddNewsletter(rows: seq<Newsletter>, row: Newsletter): (r: Result<seq<Newsletter>, DbError>)
    ensures r.Success? <==> !HasKey(rows, NewsletterId, row.id) && !HasKey(rows, NewsletterEmail, row.email)
    ensures r.Success? ==> r.value == rows + [row]
    ensures r.Success? && NewslettersValid(rows) ==> NewslettersValid(r.value)
  {
    if HasKey(rows, NewsletterId, row.id) || HasKey(rows, NewsletterEmail, row.email)
    then Failure(UniqueViolation)
    else
      UniqueKeyAppend(rows, NewsletterId, row);
      UniqueKeyAppend(rows, NewsletterEmail, row);
      Success(rows + [row])
  }

  /** A non-null `stripe_subscription_id` already used by a row of `rows` other than row `skip`. */
  predicate StripeIdTaken(rows: seq<Subscription>, sid: Option<string>, skip: int)
  {
    sid.Some? && exists j :: 0 <= j < |rows| && j != skip && rows[j].stripeSubscriptionId == sid
  }

  function AddSubscription(rows: seq<Subscription>, users: seq<User>, row: Subscription): (r: Result<seq<Subscription>, DbError>)
    ensures r.Success? <==>
              !HasKey(rows, SubscriptionId, row.id) && !StripeIdTaken(rows, row.stripeSubscriptionId, -1)
              && HasKey(users, UserId, row.userId)
    ensures r.Success? ==> r.value == rows + [row]
    ensures r.Success? && SubscriptionsValid(rows, users) ==> SubscriptionsValid(r.value, users)
  {
    if HasKey(rows, SubscriptionId, row.id) || StripeIdTaken(rows, row.stripeSubscriptionId, -1) then
      Failure(UniqueViolation)
    else if !HasKey(users, UserId, row.userId) then
      Failure(ForeignKeyViolation)
    else
      UniqueKeyAppend(rows, SubscriptionId, row);
      var t := rows + [row];
      assert forall i :: 0 <= i < |rows| ==> t[i] == rows[i];
      Success(t)
  }

  function AddPayment(rows: seq<Payment>, users: seq<User>, row: Payment): (r: Result<seq<Payment>, DbError>)
    ensures r.Success? <==>
              !HasKey(rows, PaymentId, row.id) && Int4Min <= row.amount <= Int4Max
              && (row.userId.Some? ==> HasKey(users, UserId, row.userId.value))
    ensures r.Success? ==> r.value == rows + [row]
    ensures r.Success? && PaymentsValid(rows, users) ==> PaymentsValid(r.value, users)
  {
    if HasKey(rows, PaymentId, row.id) then Failure(UniqueViolation)
    else if !(Int4Min <= row.amount <= Int4Max) then Failure(NumericOutOfRange)
    else if row.userId.Some? && !HasKey(users, UserId, row.userId.value) then Failure(ForeignKeyViolation)
    else
      UniqueKeyAppend(rows, PaymentId, row);
      var t := rows + [row];
      assert forall i :: 0 <= i < |rows| ==> t[i] == rows[i];
      Success(t)
  }

  // ---------------------------------------------------------------------------
  // Updates: `db.update(t).set(v).where(eq(t.key, k)).returning()`.

  /** Sets `subscribed` to `flag` on every row with this email; all else is kept. */
  function SetSubscribed(rows: seq<Newsletter>, email: string, flag: bool): (r: seq<Newsletter>)
    ensures |r| == |rows|
    ensures forall i :: 0 <= i < |rows| ==>
              r[i] == if rows[i].email == email then rows[i].(subscribed := flag) else rows[i]
  {
    if rows == [] then []
    else
      var last := rows[|rows| - 1];
      SetSubscribed(rows[..|rows| - 1], email, flag)
        + [if last.email == email then last.(subscribed := flag) else last]
  }

  /** Setting the flag touches no email or id, so the table stays valid. */
  lemma SetSubscribedKeepsValid(rows: seq<Newsletter>, email: string, flag: bool)
    requires NewslettersValid(rows)
    ensures NewslettersValid(SetSubscribed(rows, email, flag))
  {
    var r := SetSubscribed(rows, email, flag);
    assert forall i :: 0 <= i < |rows| ==> r[i].id == rows[i].id && r[i].email == rows[i].email;
  }

  /** An email no row has leaves the table as it was. */
  lemma SetSubscribedUnknownEmail(rows: seq<Newsletter>, email: string, flag: bool)
    requires !HasKey(rows, NewsletterEmail, email)
    ensures SetSubscribed(rows, email, flag) == rows
  {
    var r := SetSubscribed(rows, email, flag);
    forall i | 0 <= i < |rows| ensures r[i] == rows[i] {
      assert NewsletterEmail(rows[i]) != email;
    }
  }

  /** `updateUserStripeInfo`: sets the Stripe customer of the user with this id. */
  function SetStripeCustomer(users: seq<User>, userId: string, customerId: Option<string>)
    : (r: Result<(seq<User>, Option<User>), DbError>)
    ensures customerId.None? <==> r.Failure?
    ensures r.Success? && !HasKey(users, UserId, userId) ==> r.value == (users, None)
    ensures r.Success? && HasKey(users, UserId, userId) ==>
              && r.value.1.Some? && r.value.1.value.id == userId
              && r.value.1.value.stripeCustomerId == customerId
              && r.value.1 == Some(users[FirstWithKey(users, UserId, userId).value].(stripeCustomerId := customerId))
              && |r.value.0| == |users|
              && forall i :: 0 <= i < |users| ==>
                   r.value.0[i] == if i == FirstWithKey(users, UserId, userId).value then r.value.1.value else users[i]
    ensures r.Success? && UsersValid(users) ==> UsersValid(r.value.0)
  {
    if customerId.None? then Failure(NoValuesToSet)
    else
      match FirstWithKey(users, UserId, userId)
      case None => Success((users, None))
      case Some(i) =>
        var u := users[i].(stripeCustomerId := customerId);
        var t := users[i := u];
        assert forall j :: 0 <= j < |users| ==>
                 t[j].id == users[j].id && t[j].email == users[j].email && t[j].username == users[j].username;
        Success((t, Some(u)))
  }

  /** `Partial<Subscription>`: the columns an update sets; `None` leaves a column alone. */
  datatype SubscriptionPatch = SubscriptionPatch(
    userId: Option<string>,
    stripeSubscriptionId: Option<Option<string>>,
    stripePriceId: Option<Option<string>>,
    plan: Option<string>,
    status: Option<string>,
    currentPeriodStart: Option<Option<Timestamp>>,
    currentPeriodEnd: Option<Option<Timestamp>>,
    cancelAtPeriodEnd: Option<Option<bool>>)

  predicate EmptyPatch(p: SubscriptionPatch)
  {
    p.userId.None? && p.stripeSubscriptionId.None? && p.stripePriceId.None? && p.plan.None?
    && p.status.None? && p.currentPeriodStart.None? && p.currentPeriodEnd.None? && p.cancelAtPeriodEnd.None?
  }

  function Patched<T>(prev: T, v: Option<T>): T
  {
    if v.Some? then v.value else prev
  }

  /** The row after `set(patch)`: the patched columns take the new values, id and createdAt are kept. */
  function ApplyPatch(s: Subscription, p: SubscriptionPatch): (r: Subscription)
    ensures r.id == s.id && r.createdAt == s.createdAt
    ensures EmptyPatch(p) ==> r == s
    ensures p.userId.Some? ==> r.userId == p.userId.value
    ensures p.userId.None? ==> r.userId == s.userId
    ensures p.stripeSubscriptionId.Some? ==> r.stripeSubscriptionId == p.stripeSubscriptionId.value
    ensures p.stripeSubscriptionId.None? ==> r.stripeSubscriptionId == s.stripeSubscriptionId
    ensures p.stripePriceId.Some? ==> r.stripePriceId == p.stripePriceId.value
    ensures p.stripePriceId.None? ==> r.stripePriceId == s.stripePriceId
    ensures p.plan.Some? ==> r.plan == p.plan.value
    ensures p.plan.None? ==> r.plan == s.plan
    ensures p.status.Some? ==> r.status == p.status.value
    ensures p.status.None? ==> r.status == s.status
    ensures p.currentPeriodStart.Some? ==> r.currentPeriodStart == p.currentPeriodStart.value
    ensures p.currentPeriodStart.None? ==> r.currentPeriodStart == s.currentPeriodStart
    ensures p.currentPeriodEnd.Some? ==> r.currentPeriodEnd == p.currentPeriodEnd.value
    ensures p.currentPeriodEnd.None? ==> r.currentPeriodEnd == s.currentPeriodEnd
    ensures p.cancelAtPeriodEnd.Some? ==> r.cancelAtPeriodEnd == p.cancelAtPeriodEnd.value
    ensures p.cancelAtPeriodEnd.None? ==> r.cancelAtPeriodEnd == s.cancelAtPeriodEnd
  {
    s.(userId := Patched(s.userId, p.userId),
       stripeSubscriptionId := Patched(s.stripeSubscriptionId, p.stripeSubscriptionId),
       stripePriceId := Patched(s.stripePriceId, p.stripePriceId),
       plan := Patched(s.plan, p.plan),
       status := Patched(s.status, p.status),
       currentPeriodStart := Patched(s.currentPeriodStart, p.currentPeriodStart),
       currentPeriodEnd := Patched(s.currentPeriodEnd, p.currentPeriodEnd),
       cancelAtPeriodEnd := Patched(s.cancelAtPeriodEnd, p.cancelAtPeriodEnd))
  }

  /** `updateSubscription(id, data)`: patches the row with this id, if any. */
  function PatchSubscription(rows: seq<Subscription>, users: seq<User>, id: string, p: SubscriptionPatch)
    : (r: Result<(seq<Subscription>, Option<Subscription>), DbError>)
    ensures EmptyPatch(p) ==> r == Failure(NoValuesToSet)
    ensures r.Success? && !HasKey(rows, SubscriptionId, id) ==> r.value == (rows, None)
    ensures r.Success? && HasKey(rows, SubscriptionId, id) ==>
              && r.value.1.Some? && r.value.1.value.id == id
              && r.value.1.value == ApplyPatch(rows[FirstWithKey(rows, SubscriptionId, id).value], p)
              && |r.value.0| == |rows|
              && forall i :: 0 <= i < |rows| ==>
                   r.value.0[i] == if i == FirstWithKey(rows, SubscriptionId, id).value then r.value.1.value else rows[i]
    ensures r.Success? && SubscriptionsValid(rows, users) ==> SubscriptionsValid(r.value.0, users)
    ensures r.Failure? && !EmptyPatch(p) ==> HasKey(rows, SubscriptionId, id)
    ensures !EmptyPatch(p) && HasKey(rows, SubscriptionId, id) ==>
              var i := FirstWithKey(rows, SubscriptionId, id).value;
              var s' := ApplyPatch(rows[i], p);
              (r.Success? <==> !StripeIdTaken(rows, s'.stripeSubscriptionId, i) && HasKey(users, UserId, s'.userId))
  {
    if EmptyPatch(p) then Failure(NoValuesToSet)
    else
      match FirstWithKey(rows, SubscriptionId, id)
      case None => Success((rows, None))
      case Some(i) =>
        var s := ApplyPatch(rows[i], p);
        if StripeIdTaken(rows, s.stripeSubscriptionId, i) then Failure(UniqueViolation)
        else if !HasKey(users, UserId, s.userId) then Failure(ForeignKeyViolation)
        else
          var t := rows[i := s];
          assert forall j :: 0 <= j < |rows| ==> t[j].id == rows[j].id;
          Success((t, Some(s)))
  }

  // ---------------------------------------------------------------------------
  // Listings.

  /** `getContacts`: every contact, newest first. */
  function ContactsNewestFirst(rows: seq<Contact>): (r: seq<Contact>)
    ensures multiset(r) == multiset(rows)
    ensures NewestFirst(r, ContactCreatedAt)
  {
    SortNewestFirstCorrect(rows, ContactCreatedAt);
    SortNewestFirst(rows, ContactCreatedAt)
  }

  /** `getPaymentsByUserId`: exactly that user's payments, newest first. */
  function PaymentsOfUser(rows: seq<Payment>, userId: string): (r: seq<Payment>)
    ensures forall x :: multiset(r)[x] == if x.userId == Some(userId) then multiset(rows)[x] else 0
    ensures NewestFirst(r, PaymentCreatedAt)
  {
    var mine := WithKey(rows, PaymentUserId, Some(userId));
    SortNewestFirstCorrect(mine, PaymentCreatedAt);
    SortNewestFirst(mine, PaymentCreatedAt)
  }

  // ---------------------------------------------------------------------------
  // The storage object.

  /** Raising the set of user ids keeps every foreign key that pointed at a user valid. */
  lemma UsersGrowKeepsReferences(users: seq<User>, users': seq<User>, subs: seq<Subscription>, pays: seq<Payment>)
    requires forall k :: HasKey(users, UserId, k) ==> HasKey(users', UserId, k)
    requires SubscriptionsValid(subs, users) && PaymentsValid(pays, users)
    ensures SubscriptionsValid(subs, users') && PaymentsValid(pays, users')
  {
  }

  class DatabaseStorage {
    var users: seq<User>
    var contacts: seq<Contact>
    var newsletters: seq<Newsletter>
    var subscriptions: seq<Subscription>
    var payments: seq<Payment>

    /** Every constraint of the schema holds. */
    ghost predicate Valid()
      reads this
    {
      && UsersValid(users)
      && ContactsValid(contacts)
      && NewslettersValid(newsletters)
      && SubscriptionsValid(subscriptions, users)
      && PaymentsValid(payments, users)
    }

    /** An empty database. */
    constructor ()
      ensures Valid()
      ensures users == [] && contacts == [] && newsletters == [] && subscriptions == [] && payments == []
    {
      users, contacts, newsletters, subscriptions, payments := [], [], [], [], [];
    }

    // User operations

    method GetUser(id: string) returns (r: Option<User>)
      requires Valid()
      ensures r.None? <==> forall i :: 0 <= i < |users| ==> users[i].id != id
      ensures forall i :: 0 <= i < |users| && users[i].id == id ==> r == Some(users[i])
    {
      r := LookupByKey(users, UserId, id);
      forall i | 0 <= i < |users| && users[i].id == id ensures r == Some(users[i]) {
        LookupUnique(users, UserId, id, i);
      }
    }

    method GetUserByEmail(email: string) returns (r: Option<User>)
      requires Valid()
      ensures r.None? <==> forall i :: 0 <= i < |users| ==> users[i].email != email
      ensures forall i :: 0 <= i < |users| && users[i].email == email ==> r == Some(users[i])
    {
      r := LookupByKey(users, UserEmail, email);
      forall i | 0 <= i < |users| && users[i].email == email ensures r == Some(users[i]) {
        LookupUnique(users, UserEmail, email, i);
      }
    }

    method GetUserByUsername(username: string) returns (r: Option<User>)
      requires Valid()
      ensures r.None? <==> forall i :: 0 <= i < |users| ==> users[i].username != username
      ensures forall i :: 0 <= i < |users| && users[i].username == username ==> r == Some(users[i])
    {
      r := LookupByKey(users, UserUsername, username);
      forall i | 0 <= i < |users| && users[i].username == username ensures r == Some(users[i]) {
        LookupUnique(users, UserUsername, username, i);
      }
    }

    method CreateUser(u: InsertUser, id: string, now: Timestamp) returns (r: Result<User, DbError>)
      requires Valid()
      modifies this`users
      ensures Valid()
      ensures r.Success? <==> AddUser(old(users), UserRow(id, now, u)).Success?
      ensures r.Success? ==> r.value == UserRow(id, now, u) && users == old(users) + [r.value]
      ensures r.Failure? ==> users == old(users)
    {
      match AddUser(users, UserRow(id, now, u))
      case Success(t) =>
        forall k | HasKey(users, UserId, k) ensures HasKey(t, UserId, k) {
          var j :| 0 <= j < |users| && UserId(users[j]) == k;
          assert t[j] == users[j];
        }
        UsersGrowKeepsReferences(users, t, subscriptions, payments);
        users := t;
        r := Success(UserRow(id, now, u));
      case Failure(e) =>
        r := Failure(e);
    }

    method UpdateUserStripeInfo(userId: string, stripeCustomerId: Option<string>) returns (r: Result<Option<User>, DbError>)
      requires Valid()
      modifies this`users
      ensures Valid()
      ensures r.Failure? <==> stripeCustomerId.None?
      ensures r.Failure? ==> users == old(users)
      ensures r.Success? ==> (users, r.value) == SetStripeCustomer(old(users), userId, stripeCustomerId).value
    {
      match SetStripeCustomer(users, userId, stripeCustomerId)
      case Success(v) =>
        assert forall j :: 0 <= j < |users| ==> v.0[j].id == users[j].id;
        forall k | HasKey(users, UserId, k) ensures HasKey(v.0, UserId, k) {
          var j :| 0 <= j < |users| && UserId(users[j]) == k;
          assert UserId(v.0[j]) == k;
        }
        UsersGrowKeepsReferences(users, v.0, subscriptions, payments);
        users := v.0;
        r := Success(v.1);
      case Failure(e) =>
        r := Failure(e);
    }

    // Contact operations

    method CreateContact(c: InsertContact, id: string, now: Timestamp) returns (r: Result<Contact, DbError>)
      requires Valid()
      modifies this`contacts
      ensures Valid()
      ensures r.Success? <==> !HasKey(old(contacts), ContactId, id)
      ensures r.Success? ==> r.value == ContactRow(id, now, c) && r.value.status == "new"
                             && contacts == old(contacts) + [r.value]
      ensures r.Failure? ==> contacts == old(contacts)
    {
      match AddContact(contacts, ContactRow(id, now, c))
      case Success(t) =>
        contacts := t;
        r := Success(ContactRow(id, now, c));
      case Failure(e) =>
        r := Failure(e);
    }

    method GetContacts() returns (r: seq<Contact>)
      ensures multiset(r) == multiset(contacts)
      ensures NewestFirst(r, ContactCreatedAt)
    {
      r := ContactsNewestFirst(contacts);
    }

    // Newsletter operations

    method CreateNewsletterSubscription(n: InsertNewsletter, id: string, now: Timestamp)
      returns (r: Result<Newsletter, DbError>)
      requires Valid()
      modifies this`newsletters
      ensures Valid()
      ensures r.Success? <==> !HasKey(old(newsletters), NewsletterId, id) && !HasKey(old(newsletters), NewsletterEmail, n.email)
      ensures r.Success? ==> r.value == NewsletterRow(id, now, n) && r.value.subscribed
                             && newsletters == old(newsletters) + [r.value]
      ensures r.Failure? ==> newsletters == old(newsletters)
    {
      match AddNewsletter(newsletters, NewsletterRow(id, now, n))
      case Success(t) =>
        newsletters := t;
        r := Success(NewsletterRow(id, now, n));
      case Failure(e) =>
        r := Failure(e);
    }

    method GetNewsletterByEmail(email: string) returns (r: Option<Newsletter>)
      requires Valid()
      ensures r.None? <==> forall i :: 0 <= i < |newsletters| ==> newsletters[i].email != email
      ensures forall i :: 0 <= i < |newsletters| && newsletters[i].email == email ==> r == Some(newsletters[i])
      ensures r == LookupByKey(newsletters, NewsletterEmail, email)
    {
      r := LookupByKey(newsletters, NewsletterEmail, email);
      forall i | 0 <= i < |newsletters| && newsletters[i].email == email ensures r == Some(newsletters[i]) {
        LookupUnique(newsletters, NewsletterEmail, email, i);
      }
    }

    method UnsubscribeNewsletter(email: string)
      requires Valid()
      modifies this`newsletters
      ensures Valid()
      ensures |newsletters| == |old(newsletters)|
      ensures forall i :: 0 <= i < |newsletters| ==>
                newsletters[i] == if old(newsletters)[i].email == email
                                  then old(newsletters)[i].(subscribed := false)
                                  else old(newsletters)[i]
      ensures newsletters == SetSubscribed(old(newsletters), email, false)
    {
      SetSubscribedKeepsValid(newsletters, email, false);
      newsletters := SetSubscribed(newsletters, email, false);
    }

    /**
     * Sets `subscribed` again on the rows with this email: the update the
     * re-subscribe branch of `POST /api/newsletter` evidently intends.
     */
    method ResubscribeNewsletter(email: string)
      requires Valid()
      modifies this`newsletters
      ensures Valid()
      ensures |newsletters| == |old(newsletters)|
      ensures forall i :: 0 <= i < |newsletters| ==>
                newsletters[i] == if old(newsletters)[i].email == email
                                  then old(newsletters)[i].(subscribed := true)
                                  else old(newsletters)[i]
      ensures newsletters == SetSubscribed(old(newsletters), email, true)
    {
      SetSubscribedKeepsValid(newsletters, email, true);
      newsletters := SetSubscribed(newsletters, email, true);
    }

    // Subscription operations

    method CreateSubscription(s: InsertSubscription, id: string, now: Timestamp)
      returns (r: Result<Subscription, DbError>)
      requires Valid()
      modifies this`subscriptions
      ensures Valid()
      ensures r.Success? <==> AddSubscription(old(subscriptions), users, SubscriptionRow(id, now, s)).Success?
      ensures r.Success? ==> r.value == SubscriptionRow(id, now, s) && subscriptions == old(subscriptions) + [r.value]
      ensures r.Failure? ==> subscriptions == old(subscriptions)
    {
      match AddSubscription(subscriptions, users, SubscriptionRow(id, now, s))
      case Success(t) =>
        subscriptions := t;
        r := Success(SubscriptionRow(id, now, s));
      case Failure(e) =>
        r := Failure(e);
    }

    method GetSubscriptionByUserId(userId: string) returns (r: Option<Subscription>)
      ensures r.None? <==> forall i :: 0 <= i < |subscriptions| ==> subscriptions[i].userId != userId
      ensures r.Some? ==> r.value.userId == userId && r.value in subscriptions
      ensures r.Some? ==> exists i :: 0 <= i < |subscriptions| && subscriptions[i] == r.value
                                      && forall j :: 0 <= j < i ==> subscriptions[j].userId != userId
    {
      r := LookupByKey(subscriptions, SubscriptionUserId, userId);
    }

    method UpdateSubscription(id: string, patch: SubscriptionPatch) returns (r: Result<Option<Subscription>, DbError>)
      requires Valid()
      modifies this`subscriptions
      ensures Valid()
      ensures r.Success? <==> PatchSubscription(old(subscriptions), users, id, patch).Success?
      ensures r.Failure? ==> subscriptions == old(subscriptions)
      ensures r.Success? && (forall i :: 0 <= i < |old(subscriptions)| ==> old(subscriptions)[i].id != id) ==>
                r.value.None? && subscriptions == old(subscriptions)
      ensures r.Success? ==>
                && |subscriptions| == |old(subscriptions)|
                && forall i :: 0 <= i < |subscriptions| && old(subscriptions)[i].id != id ==>
                     subscriptions[i] == old(subscriptions)[i]
      ensures r.Success? ==> (subscriptions, r.value) == PatchSubscription(old(subscriptions), users, id, patch).value
    {
      match PatchSubscription(subscriptions, users, id, patch)
      case Success(v) =>
        subscriptions := v.0;
        r := Success(v.1);
      case Failure(e) =>
        r := Failure(e);
    }

    // Payment operations

    method CreatePayment(p: InsertPayment, id: string, now: Timestamp) returns (r: Result<Payment, DbError>)
      requires Valid()
      modifies this`payments
      ensures Valid()
      ensures r.Success? <==> AddPayment(old(payments), users, PaymentRow(id, now, p)).Success?
      ensures r.Success? ==> r.value == PaymentRow(id, now, p) && payments == old(payments) + [r.value]
      ensures r.Failure? ==> payments == old(payments)
    {
      match AddPayment(payments, users, PaymentRow(id, now, p))
      case Success(t) =>
        payments := t;
        r := Success(PaymentRow(id, now, p));
      case Failure(e) =>
        r := Failure(e);
    }

    method GetPaymentsByUserId(userId: string) returns (r: seq<Payment>)
      ensures forall x :: multiset(r)[x] == if x.userId == Some(userId) then multiset(payments)[x] else 0
      ensures NewestFirst(r, PaymentCreatedAt)
    {
      r := PaymentsOfUser(payments, userId);
    }
  }

  // ---------------------------------------------------------------------------
  // The billing provider's mirrored catalogue, read with
  // `listStripeProductsWithPrices(active)`.

  datatype StripeProduct = StripeProduct(
    id: string, name: string, description: Option<string>, active: bool, metadata: string)

  datatype StripePrice = StripePrice(
    id: string, product: string, unitAmount: Option<int>, currency: string,
    recurring: Option<string>, active: bool, metadata: string)

  /** One row of `products LEFT JOIN prices`; the price columns are null when a product has no active price. */
  datatype ProductPriceRow = ProductPriceRow(
    productId: string,
    productName: string,
    productDescription: Option<string>,
    productActive: bool,
    productMetadata: string,
    priceId: Option<string>,
    unitAmount: Option<int>,
    currency: Option<string>,
    recurring: Option<string>,
    priceActive: Option<bool>,
    priceMetadata: Option<string>)

  function JoinedRow(p: StripeProduct, pr: Option<StripePrice>): ProductPriceRow
  {
    match pr
    case None => ProductPriceRow(p.id, p.name, p.description, p.active, p.metadata, None, None, None, None, None, None)
    case Some(x) =>
      ProductPriceRow(p.id, p.name, p.description, p.active, p.metadata,
                      Some(x.id), x.unitAmount, Some(x.currency), x.recurring, Some(x.active), Some(x.metadata))
  }

  /** Text order, taken as code-point order. */
  predicate StrLt(a: string, b: string)
  {
    if a == [] then b != []
    else if b == [] then false
    else if a[0] != b[0] then a[0] < b[0]
    else StrLt(a[1..], b[1..])
  }

  /** `ORDER BY unit_amount` ascending, nulls last. */
  predicate AmountLe(a: Option<int>, b: Option<int>)
  {
    match (a, b)
    case (_, None) => true
    case (None, Some(_)) => false
    case (Some(x), Some(y)) => x <= y
  }

  /** `ORDER BY p.id, pr.unit_amount`. */
  predicate RowLe(a: ProductPriceRow, b: ProductPriceRow)
  {
    StrLt(a.productId, b.productId) || (a.productId == b.productId && AmountLe(a.unitAmount, b.unitAmount))
  }

  ghost predicate ListingOrdered(rows: seq<ProductPriceRow>)
  {
    forall i, j :: 0 <= i < j < |rows| ==> RowLe(rows[i], rows[j])
  }

  predicate HasActivePrice(prices: seq<StripePrice>, productId: string)
  {
    exists pr :: pr in prices && pr.product == productId && pr.active
  }

  /**
   * `row` joins a product with the given `active` flag either with one of
   * its active prices or, when it has none, with nulls.
   */
  ghost predicate DrawnFrom(
    products: seq<StripeProduct>, prices: seq<StripePrice>, active: bool, row: ProductPriceRow)
  {
    exists p :: p in products && p.active == active &&
      ((exists pr :: pr in prices && pr.product == p.id && pr.active && row == JoinedRow(p, Some(pr)))
       || (!HasActivePrice(prices, p.id) && row == JoinedRow(p, None)))
  }

  /**
   * `rows` is what listStripeProductsWithPrices(active) returns: products with
   * the given `active` flag, each joined with its active prices (or with a row
   * of nulls when it has none), ordered by product id and then unit amount.
   */
  ghost predicate IsProductPriceListing(
    products: seq<StripeProduct>, prices: seq<StripePrice>, active: bool, rows: seq<ProductPriceRow>)
    ensures IsProductPriceListing(products, prices, active, rows) ==>
              forall i :: 0 <= i < |rows| ==> rows[i].productActive == active
    ensures IsProductPriceListing(products, prices, active, rows) ==>
              forall i :: 0 <= i < |rows| && rows[i].priceId.Some? ==> rows[i].priceActive == Some(true)
  {
    && ListingOrdered(rows)
    && (forall i :: 0 <= i < |rows| ==> DrawnFrom(products, prices, active, rows[i]))
    && (forall p, pr :: p in products && p.active == active && pr in prices && pr.product == p.id && pr.active
          ==> JoinedRow(p, Some(pr)) in rows)
    && (forall p :: p in products && p.active == active && !HasActivePrice(prices, p.id)
          ==> JoinedRow(p, None) in rows)
  }
}
