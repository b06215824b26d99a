/**
 * The HTTP handlers of the API: checkout and customer-portal sessions with
 * the payment provider, the pricing listing, the contact form, newsletter
 * subscription and unsubscription, and the required-field guards of the
 * game, affiliate and assistant endpoints.
 *
 * A handler that only computes a reply is a function of the request; a
 * handler that writes to the database is a method on `DatabaseStorage`,
 * proved against a function that says what the reply and the new table are.
 * Calls to the payment provider are function parameters.
 */
module Routes {
  import opened Wrappers
  import opened Json
  import opened Tables
  import opened Schema
  import opened Storage
  import opened Pricing

  /** What a handler reads from a request: the JSON body and two headers. */
  datatype Request = Request(body: Body, host: Option<string>, forwardedProto: Option<string>)

  /** What the static listing or the provider's catalogue gives the pricing page. */
  datatype Plans = StripePlans(products: seq<ProductPlan>) | StaticPlans(table: seq<(string, PricingPlan)>)

  /** The JSON object a handler answers with. */
  datatype Reply =
    | ErrorReply(error: string)
    | InvalidFormReply(error: string, details: seq<string>)
    | CheckoutReply(url: Option<string>, sessionId: string)
    | PortalReply(portalUrl: string)
    | PricingReply(plans: Plans, source: string)
    | ContactReply(message: string, contact: Contact)
    | NewsletterReply(message: string, newsletter: Newsletter)
    | MessageReply(message: string)

  datatype Response = Response(status: nat, reply: Reply)

  /** `header || fallback`: an absent or empty header falls back. */
  function OrDefault(header: Option<string>, fallback: string): string
  {
    if header.Some? && header.value != "" then header.value else fallback
  }

  /** `${protocol}://${host}`, from `x-forwarded-proto` and `host`. */
  function BaseUrl(req: Request): string
  {
    OrDefault(req.forwardedProto, "https") + "://" + OrDefault(req.host, "localhost:5000")
  }

  /**
   * Without headers the links point at https://localhost:5000; with both, at
   * what they name; each header that is absent or empty falls back on its own.
   */
  lemma BaseUrlFromHeaders(req: Request)
    ensures (req.host.None? || req.host == Some("")) && (req.forwardedProto.None? || req.forwardedProto == Some(""))
            ==> BaseUrl(req) == "https://localhost:5000"
    ensures req.host.Some? && req.host.value != "" && req.forwardedProto.Some? && req.forwardedProto.value != ""
            ==> BaseUrl(req) == req.forwardedProto.value + "://" + req.host.value
    ensures req.host.Some? && req.host.value != "" && (req.forwardedProto.None? || req.forwardedProto == Some(""))
            ==> BaseUrl(req) == "https://" + req.host.value
    ensures (req.host.None? || req.host == Some("")) && req.forwardedProto.Some? && req.forwardedProto.value != ""
            ==> BaseUrl(req) == req.forwardedProto.value + "://localhost:5000"
  {
  }

  // ---------------------------------------------------------------------------
  // Required-field guards.

  /** One test of a guard: `!body.key` rejects, or `body.key === undefined` rejects. */
  datatype Check = MustBeTruthy(key: string) | MustBeDefined(key: string)

  predicate Passes(body: Body, c: Check)
  {
    match c
    case MustBeTruthy(k) => Truthy(Field(body, k))
    case MustBeDefined(k) => !Field(body, k).Undefined?
  }

  /** The guard at the top of a handler: a 400 with `message` unless every check passes. */
  function Guard(body: Body, checks: seq<Check>, message: string): (r: Option<Response>)
    ensures r.None? <==> forall i :: 0 <= i < |checks| ==> Passes(body, checks[i])
    ensures r.Some? ==> r.value.status == 400 && r.value.reply == ErrorReply(message)
    decreases |checks|
  {
    if checks == [] then None
    else if !Passes(body, checks[0]) then Some(Response(400, ErrorReply(message)))
    else
      var rest := Guard(body, checks[1..], message);
      assert forall i :: 0 < i < |checks| ==> checks[i] == checks[1..][i - 1];
      rest
  }

  /** The endpoints whose handlers start with a required-field guard. */
  datatype Endpoint = Play | Score | AffiliateLink | Chat | GoalRecommendations | FinancialInsights | AnalyzeProgress

  /** The checks each endpoint's guard makes, in the order it makes them. */
  function Checks(e: Endpoint): seq<Check>
  {
    match e
    case Play => [MustBeTruthy("gameType"), MustBeTruthy("difficulty")]
    case Score => [MustBeTruthy("gameId"), MustBeDefined("score")]
    case AffiliateLink => [MustBeTruthy("partnerId")]
    case Chat => [MustBeTruthy("message")]
    case GoalRecommendations => [MustBeTruthy("userContext")]
    case FinancialInsights => [MustBeTruthy("financialData")]
    case AnalyzeProgress => [MustBeTruthy("goalDescription"), MustBeDefined("progress")]
  }

  function MissingFieldMessage(e: Endpoint): string
  {
    match e
    case Play => "Game type and difficulty are required"
    case Score => "Game ID and score are required"
    case AffiliateLink => "Partner ID is required"
    case Chat => "Message is required"
    case GoalRecommendations => "User context is required"
    case FinancialInsights => "Financial data is required"
    case AnalyzeProgress => "Goal description and progress are required"
  }

  /**
   * The guard of each endpoint, field by field: game start needs a truthy
   * game type and difficulty; a score needs a truthy game id and a score
   * that is not undefined; the others need their one field truthy; progress
   * analysis needs a truthy goal and a progress that is not undefined.
   */
  function EndpointGuard(e: Endpoint, body: Body): (r: Option<Response>)
    ensures e == Play ==> (r.None? <==> Truthy(Field(body, "gameType")) && Truthy(Field(body, "difficulty")))
    ensures e == Score ==> (r.None? <==> Truthy(Field(body, "gameId")) && !Field(body, "score").Undefined?)
    ensures e == AffiliateLink ==> (r.None? <==> Truthy(Field(body, "partnerId")))
    ensures e == Chat ==> (r.None? <==> Truthy(Field(body, "message")))
    ensures e == GoalRecommendations ==> (r.None? <==> Truthy(Field(body, "userContext")))
    ensures e == FinancialInsights ==> (r.None? <==> Truthy(Field(body, "financialData")))
    ensures e == AnalyzeProgress ==>
              (r.None? <==> Truthy(Field(body, "goalDescription")) && !Field(body, "progress").Undefined?)
    ensures r.Some? ==> r.value == Response(400, ErrorReply(MissingFieldMessage(e)))
  {
    var checks := Checks(e);
    var r := Guard(body, checks, MissingFieldMessage(e));
    assert |checks| == 1 ==> (Passes(body, checks[0]) ==> r.None?);
    assert |checks| == 2 ==> (Passes(body, checks[0]) && Passes(body, checks[1]) ==> r.None?);
    r
  }

  /** A score of 0 or null passes the score guard, where a truthiness test would reject it; an absent score does not. */
  lemma ScoreZeroOrNullAccepted(body: Body, gameId: string)
    requires gameId != ""
    ensures EndpointGuard(Score, body["gameId" := Str(gameId)]["score" := Num(0)]).None?
    ensures EndpointGuard(Score, body["gameId" := Str(gameId)]["score" := Null]).None?
    ensures "score" !in body ==> EndpointGuard(Score, body["gameId" := Str(gameId)]).Some?
  {
    assert Field(body["gameId" := Str(gameId)]["score" := Num(0)], "gameId") == Str(gameId);
    assert Field(body["gameId" := Str(gameId)]["score" := Null], "gameId") == Str(gameId);
  }

  /** A progress of 0 or null passes the progress guard; an absent progress does not. */
  lemma ProgressZeroOrNullAccepted(body: Body, goal: string)
    requires goal != ""
    ensures EndpointGuard(AnalyzeProgress, body["goalDescription" := Str(goal)]["progress" := Num(0)]).None?
    ensures EndpointGuard(AnalyzeProgress, body["goalDescription" := Str(goal)]["progress" := Null]).None?
    ensures "progress" !in body ==> EndpointGuard(AnalyzeProgress, body["goalDescription" := Str(goal)]).Some?
  {
    assert Field(body["goalDescription" := Str(goal)]["progress" := Num(0)], "goalDescription") == Str(goal);
    assert Field(body["goalDescription" := Str(goal)]["progress" := Null], "goalDescription") == Str(goal);
  }

  // ---------------------------------------------------------------------------
  // Sessions with the payment provider.

  /** Whether a provider client could be obtained, and the error's message when not. */
  datatype StripeAccess = Available | Unavailable(message: string)

  datatype LineItem = LineItem(price: JsValue, quantity: nat)

  /** The parameters of a checkout session as the handler sends them. */
  datatype CheckoutParams = CheckoutParams(
    paymentMethodTypes: seq<string>,
    lineItems: seq<LineItem>,
    mode: string,
    successUrl: string,
    cancelUrl: string,
    customerEmail: JsValue,
    metadataPlan: JsValue)

  datatype Session = Session(id: string, url: Option<string>)

  /** The response, and the session parameters sent to the provider, if any. */
  datatype CheckoutOutcome = CheckoutOutcome(response: Response, sent: Option<CheckoutParams>)

  /** `error.message || fallback`. */
  function MessageOr(message: string, fallback: string): string
  {
    if message != "" then message else fallback
  }

  /**
   * `POST /api/checkout`. `create` stands for the provider's
   * `checkout.sessions.create`, answering a session or an error message.
   */
  function PostCheckout(req: Request, access: StripeAccess, create: CheckoutParams -> Result<Session, string>)
    : (r: CheckoutOutcome)
    ensures !Truthy(Field(req.body, "priceId")) || !Truthy(Field(req.body, "plan")) ==>
              r == CheckoutOutcome(Response(400, ErrorReply("Price ID and plan are required")), None)
    ensures r.sent.Some? <==> Truthy(Field(req.body, "priceId")) && Truthy(Field(req.body, "plan")) && access.Available?
    ensures r.sent.Some? ==>
              && r.sent.value.paymentMethodTypes == ["card"]
              && r.sent.value.lineItems == [LineItem(Field(req.body, "priceId"), 1)]
              && r.sent.value.mode == "subscription"
              && r.sent.value.successUrl == BaseUrl(req) + "/payment/success?session_id={CHECKOUT_SESSION_ID}"
              && r.sent.value.cancelUrl == BaseUrl(req) + "/payment/cancel"
              && r.sent.value.customerEmail == Field(req.body, "email")
              && r.sent.value.metadataPlan == Field(req.body, "plan")
    ensures r.sent.Some? && create(r.sent.value).Success? ==>
              r.response == Response(200, CheckoutReply(create(r.sent.value).value.url, create(r.sent.value).value.id))
    ensures r.sent.Some? && create(r.sent.value).Failure? ==>
              r.response == Response(500, ErrorReply(MessageOr(create(r.sent.value).error, "Failed to create checkout session")))
    ensures Truthy(Field(req.body, "priceId")) && Truthy(Field(req.body, "plan")) && access.Unavailable? ==>
              r.response == Response(500, ErrorReply(MessageOr(access.message, "Failed to create checkout session")))
  {
    var body := req.body;
    if !Truthy(Field(body, "priceId")) || !Truthy(Field(body, "plan")) then
      CheckoutOutcome(Response(400, ErrorReply("Price ID and plan are required")), None)
    else if access.Unavailable? then
      CheckoutOutcome(Response(500, ErrorReply(MessageOr(access.message, "Failed to create checkout session"))), None)
    else
      var base := BaseUrl(req);
      var params := CheckoutParams(
        ["card"], [LineItem(Field(body, "priceId"), 1)], "subscription",
        base + "/payment/success?session_id={CHECKOUT_SESSION_ID}", base + "/payment/cancel",
        Field(body, "email"), Field(body, "plan"));
      match create(params)
      case Success(session) => CheckoutOutcome(Response(200, CheckoutReply(session.url, session.id)), Some(params))
      case Failure(message) =>
        CheckoutOutcome(Response(500, ErrorReply(MessageOr(message, "Failed to create checkout session"))), Some(params))
  }

  /** Both links of a checkout session lead back to the origin the request came through. */
  lemma CheckoutLinksStayOnOrigin(req: Request, access: StripeAccess, create: CheckoutParams -> Result<Session, string>)
    requires PostCheckout(req, access, create).sent.Some?
    ensures BaseUrl(req) <= PostCheckout(req, access, create).sent.value.successUrl
    ensures BaseUrl(req) <= PostCheckout(req, access, create).sent.value.cancelUrl
  {
    var p := PostCheckout(req, access, create).sent.value;
    assert p.successUrl == BaseUrl(req) + "/payment/success?session_id={CHECKOUT_SESSION_ID}";
    assert p.successUrl[..|BaseUrl(req)|] == BaseUrl(req);
    assert p.cancelUrl[..|BaseUrl(req)|] == BaseUrl(req);
  }

  /** The parameters of a billing-portal session. */
  datatype PortalParams = PortalParams(customer: JsValue, returnUrl: string)

  datatype PortalOutcome = PortalOutcome(response: Response, sent: Option<PortalParams>)

  /**
   * `POST /api/customer-portal`. `create` stands for the provider's
   * `billingPortal.sessions.create`, answering the session's url or an error.
   * Every failure gets the same generic message.
   */
  function PostCustomerPortal(req: Request, access: StripeAccess, create: PortalParams -> Result<string, string>)
    : (r: PortalOutcome)
    ensures !Truthy(Field(req.body, "customerId")) ==>
              r == PortalOutcome(Response(400, ErrorReply("Customer ID is required")), None)
    ensures r.sent.Some? <==> Truthy(Field(req.body, "customerId")) && access.Available?
    ensures r.sent.Some? ==> r.sent.value == PortalParams(Field(req.body, "customerId"), BaseUrl(req) + "/dashboard")
    ensures r.sent.Some? && create(r.sent.value).Success? ==>
              r.response == Response(200, PortalReply(create(r.sent.value).value))
    ensures Truthy(Field(req.body, "customerId")) && (r.sent.None? || create(r.sent.value).Failure?) ==>
              r.response == Response(500, ErrorReply("Failed to create portal session"))
  {
    var body := req.body;
    if !Truthy(Field(body, "customerId")) then
      PortalOutcome(Response(400, ErrorReply("Customer ID is required")), None)
    else if access.Unavailable? then
      PortalOutcome(Response(500, ErrorReply("Failed to create portal session")), None)
    else
      var params := PortalParams(Field(body, "customerId"), BaseUrl(req) + "/dashboard");
      match create(params)
      case Success(url) => PortalOutcome(Response(200, PortalReply(url)), Some(params))
      case Failure(_) => PortalOutcome(Response(500, ErrorReply("Failed to create portal session")), Some(params))
  }

  // ---------------------------------------------------------------------------
  // Pricing.

  /** What `listStripeProductsWithPrices(true)` gave: the rows, or an error. */
  datatype Listing = Listed(rows: seq<ProductPriceRow>) | QueryFailed

  /**
   * `GET /api/pricing`: the provider's catalogue grouped by product when it
   * lists anything, the static table otherwise (also when the query fails).
   * It always answers 200.
   */
  method GetPricing(listing: Listing) returns (resp: Response)
    ensures listing.Listed? && |listing.rows| > 0 ==>
              resp == Response(200, PricingReply(StripePlans(Group(listing.rows)), "stripe"))
    ensures !(listing.Listed? && |listing.rows| > 0) ==>
              resp == Response(200, PricingReply(StaticPlans(PricingPlans), "static"))
  {
    match listing
    case QueryFailed =>
      resp := Response(200, PricingReply(StaticPlans(PricingPlans), "static"));
    case Listed(rows) =>
      if |rows| > 0 {
        var plans := GroupProducts(rows);
        resp := Response(200, PricingReply(StripePlans(plans), "stripe"));
      } else {
        resp := Response(200, PricingReply(StaticPlans(PricingPlans), "static"));
      }
  }

  // ---------------------------------------------------------------------------
  // Contact form.

  /** `POST /api/contact`: the response and the contacts table afterwards. */
  function SubmitContact(rows: seq<Contact>, body: Body, id: string, now: Timestamp): (r: (Response, seq<Contact>))
    ensures ContactIssues(body) != [] ==>
              r == (Response(400, InvalidFormReply("Invalid form data", ContactIssues(body))), rows)
    ensures ContactIssues(body) == [] && HasKey(rows, ContactId, id) ==>
              r == (Response(500, ErrorReply("Failed to submit contact form")), rows)
    ensures ContactIssues(body) == [] && !HasKey(rows, ContactId, id) ==>
              && r.0.status == 201 && r.0.reply.ContactReply?
              && r.0.reply.message == "Thank you for your message! We'll get back to you soon."
              && r.1 == rows + [r.0.reply.contact]
    ensures r.0.status == 201 ==>
              && r.0.reply.ContactReply? && r.0.reply.contact.status == "new"
              && r.0.reply.contact.id == id && r.0.reply.contact.createdAt == now
              && r.0.reply.contact.name == Field(body, "name").s
              && r.0.reply.contact.email == Field(body, "email").s
              && r.0.reply.contact.subject == NullableValue(body, "subject")
              && r.0.reply.contact.message == Field(body, "message").s
    ensures ContactsValid(rows) ==> ContactsValid(r.1)
  {
    match ParseInsertContact(body)
    case Failure(issues) => (Response(400, InvalidFormReply("Invalid form data", issues)), rows)
    case Success(c) =>
      match AddContact(rows, ContactRow(id, now, c))
      case Success(t) =>
        (Response(201, ContactReply("Thank you for your message! We'll get back to you soon.", ContactRow(id, now, c))), t)
      case Failure(_) => (Response(500, ErrorReply("Failed to submit contact form")), rows)
  }

  /** A client cannot choose a contact's status, id or creation time: those body fields change nothing. */
  lemma ContactIgnoresServerFields(rows: seq<Contact>, body: Body, id: string, now: Timestamp, key: string, v: JsValue)
    requires key in {"status", "id", "createdAt"}
    ensures SubmitContact(rows, body[key := v], id, now) == SubmitContact(rows, body, id, now)
  {
    ContactOmittedFieldsIgnored(body, key, v);
  }

  /** `POST /api/contact` against the database. */
  method PostContact(db: DatabaseStorage, body: Body, id: string, now: Timestamp) returns (resp: Response)
    requires db.Valid()
    modifies db`contacts
    ensures db.Valid()
    ensures (resp, db.contacts) == SubmitContact(old(db.contacts), body, id, now)
  {
    match ParseInsertContact(body)
    case Failure(issues) =>
      resp := Response(400, InvalidFormReply("Invalid form data", issues));
    case Success(c) =>
      var created := db.CreateContact(c, id, now);
      match created
      case Success(contact) =>
        resp := Response(201, ContactReply("Thank you for your message! We'll get back to you soon.", contact));
      case Failure(_) =>
        resp := Response(500, ErrorReply("Failed to submit contact form"));
  }

  // ---------------------------------------------------------------------------
  // Newsletter.

  /** The answer to an address that is already on the list, subscribed. */
  const AlreadySubscribed := Response(400, ErrorReply("Email is already subscribed"))
  const SubscribeFailed := Response(500, ErrorReply("Failed to subscribe to newsletter"))
  const WelcomeBack := Response(200, MessageReply("Welcome back! You've been re-subscribed."))

  /**
   * `POST /api/newsletter` as written: an address that unsubscribed earlier
   * is inserted again, which the unique `email` column refuses.
   */
  function SubscribeAsWritten(rows: seq<Newsletter>, body: Body, id: string, now: Timestamp)
    : (r: (Response, seq<Newsletter>))
    ensures !Field(body, "email").Str? ==> r == (Response(400, ErrorReply("Invalid email address")), rows)
    ensures r.0.status == 400 || r.0.status == 500 ==> r.1 == rows
    ensures NewslettersValid(rows) ==> NewslettersValid(r.1)
    ensures r.0.status != 200
    ensures r.0.status == 201 ==>
              Field(body, "email").Str? &&
              exists j :: 0 <= j < |r.1| && r.1[j].email == Field(body, "email").s && r.1[j].subscribed
  {
    match ParseInsertNewsletter(body)
    case Failure(_) => (Response(400, ErrorReply("Invalid email address")), rows)
    case Success(n) =>
      match LookupByKey(rows, NewsletterEmail, n.email)
      case Some(existing) =>
        if existing.subscribed then (AlreadySubscribed, rows)
        else
          (match AddNewsletter(rows, NewsletterRow(id, now, n))
           case Success(t) => (WelcomeBack, t)
           case Failure(_) => (SubscribeFailed, rows))
      case None =>
        match AddNewsletter(rows, NewsletterRow(id, now, n))
        case Success(t) =>
          assert t[|rows|].email == n.email && t[|rows|].subscribed;
          (Response(201, NewsletterReply("Successfully subscribed to our newsletter!", NewsletterRow(id, now, n))), t)
        case Failure(_) => (SubscribeFailed, rows)
  }

  /** As written, an address that unsubscribed can never subscribe again: every attempt fails with a 500. */
  lemma ResubscribeFailsAsWritten(rows: seq<Newsletter>, body: Body, id: string, now: Timestamp, i: nat)
    requires NewslettersValid(rows)
    requires i < |rows| && !rows[i].subscribed
    requires Field(body, "email") == Str(rows[i].email)
    ensures SubscribeAsWritten(rows, body, id, now) == (SubscribeFailed, rows)
  {
    LookupUnique(rows, NewsletterEmail, rows[i].email, i);
  }

  /** A concrete case: the list holds "a@b.c", unsubscribed, and the address asks to come back. */
  lemma ResubscribeFailsExample()
    ensures SubscribeAsWritten([Newsletter("n1", "a@b.c", false, 0)], map["email" := Str("a@b.c")], "n2", 1).0
            == Response(500, ErrorReply("Failed to subscribe to newsletter"))
  {
    var rows := [Newsletter("n1", "a@b.c", false, 0)];
    assert NewsletterEmail(rows[0]) == "a@b.c";
    ResubscribeFailsAsWritten(rows, map["email" := Str("a@b.c")], "n2", 1, 0);
  }

  /**
   * `POST /api/newsletter` as evidently intended: an address that
   * unsubscribed earlier has its row subscribed again.
   */
  function Subscribe(rows: seq<Newsletter>, body: Body, id: string, now: Timestamp)
    : (r: (Response, seq<Newsletter>))
    ensures !Field(body, "email").Str? ==> r == (Response(400, ErrorReply("Invalid email address")), rows)
    ensures r.0.status == 400 || r.0.status == 500 ==> r.1 == rows
    ensures NewslettersValid(rows) ==> NewslettersValid(r.1)
  {
    match ParseInsertNewsletter(body)
    case Failure(_) => (Response(400, ErrorReply("Invalid email address")), rows)
    case Success(n) =>
      match LookupByKey(rows, NewsletterEmail, n.email)
      case Some(existing) =>
        if existing.subscribed then (AlreadySubscribed, rows)
        else
          assert NewslettersValid(rows) ==> NewslettersValid(SetSubscribed(rows, n.email, true)) by {
            if NewslettersValid(rows) { SetSubscribedKeepsValid(rows, n.email, true); }
          }
          (WelcomeBack, SetSubscribed(rows, n.email, true))
      case None =>
        match AddNewsletter(rows, NewsletterRow(id, now, n))
        case Success(t) =>
          (Response(201, NewsletterReply("Successfully subscribed to our newsletter!", NewsletterRow(id, now, n))), t)
        case Failure(_) => (SubscribeFailed, rows)
  }

  /** Corrected: an address that unsubscribed is welcomed back, its row subscribed again and nothing else changed. */
  lemma ResubscribeRestores(rows: seq<Newsletter>, body: Body, id: string, now: Timestamp, i: nat)
    requires NewslettersValid(rows)
    requires i < |rows| && !rows[i].subscribed
    requires Field(body, "email") == Str(rows[i].email)
    ensures Subscribe(rows, body, id, now).0 == WelcomeBack
    ensures |Subscribe(rows, body, id, now).1| == |rows|
    ensures Subscribe(rows, body, id, now).1[i] == rows[i].(subscribed := true)
    ensures forall j :: 0 <= j < |rows| && j != i ==> Subscribe(rows, body, id, now).1[j] == rows[j]
  {
    LookupUnique(rows, NewsletterEmail, rows[i].email, i);
    assert forall j :: 0 <= j < |rows| && j != i ==> NewsletterEmail(rows[j]) != NewsletterEmail(rows[i]);
  }

  /** An address already subscribed is turned away and the table is left alone. */
  lemma AlreadySubscribedRejected(rows: seq<Newsletter>, body: Body, id: string, now: Timestamp, i: nat)
    requires NewslettersValid(rows)
    requires i < |rows| && rows[i].subscribed
    requires Field(body, "email") == Str(rows[i].email)
    ensures Subscribe(rows, body, id, now) == (AlreadySubscribed, rows)
    ensures SubscribeAsWritten(rows, body, id, now) == (AlreadySubscribed, rows)
  {
    LookupUnique(rows, NewsletterEmail, rows[i].email, i);
  }

  /** A new address gets a 201 and one new subscribed row, appended. */
  lemma NewAddressSubscribed(rows: seq<Newsletter>, body: Body, id: string, now: Timestamp)
    requires Field(body, "email").Str?
    requires !HasKey(rows, NewsletterEmail, Field(body, "email").s) && !HasKey(rows, NewsletterId, id)
    ensures Subscribe(rows, body, id, now).0.status == 201
    ensures Subscribe(rows, body, id, now).1 == rows + [Newsletter(id, Field(body, "email").s, true, now)]
    ensures SubscribeAsWritten(rows, body, id, now) == Subscribe(rows, body, id, now)
  {
  }

  /** After a successful subscription the address is on the list, subscribed. */
  lemma SubscribeSucceedsLeavesSubscribed(rows: seq<Newsletter>, body: Body, id: string, now: Timestamp)
    requires Subscribe(rows, body, id, now).0.status == 200 || Subscribe(rows, body, id, now).0.status == 201
    ensures Field(body, "email").Str?
    ensures exists j :: 0 <= j < |Subscribe(rows, body, id, now).1|
                        && Subscribe(rows, body, id, now).1[j].email == Field(body, "email").s
                        && Subscribe(rows, body, id, now).1[j].subscribed
  {
    var e := Field(body, "email").s;
    var r := Subscribe(rows, body, id, now).1;
    match LookupByKey(rows, NewsletterEmail, e)
    case Some(existing) =>
      var i :| 0 <= i < |rows| && rows[i] == existing;
      assert r[i].email == e && r[i].subscribed;
    case None =>
      assert r[|rows|].email == e;
  }

  /**
   * `POST /api/newsletter` against the database, as written: an address that
   * unsubscribed is inserted again.
   */
  method PostNewsletterAsWritten(db: DatabaseStorage, body: Body, id: string, now: Timestamp) returns (resp: Response)
    requires db.Valid()
    modifies db`newsletters
    ensures db.Valid()
    ensures (resp, db.newsletters) == SubscribeAsWritten(old(db.newsletters), body, id, now)
  {
    match ParseInsertNewsletter(body)
    case Failure(_) =>
      resp := Response(400, ErrorReply("Invalid email address"));
    case Success(n) =>
      var existing := db.GetNewsletterByEmail(n.email);
      if existing.Some? {
        if existing.value.subscribed {
          resp := AlreadySubscribed;
        } else {
          var again := db.CreateNewsletterSubscription(n, id, now);
          match again
          case Success(_) =>
            resp := WelcomeBack;
          case Failure(_) =>
            resp := SubscribeFailed;
        }
      } else {
        var created := db.CreateNewsletterSubscription(n, id, now);
        match created
        case Success(newsletter) =>
          resp := Response(201, NewsletterReply("Successfully subscribed to our newsletter!", newsletter));
        case Failure(_) =>
          resp := SubscribeFailed;
      }
  }

  /** `POST /api/newsletter` against the database, with re-subscription corrected. */
  method PostNewsletter(db: DatabaseStorage, body: Body, id: string, now: Timestamp) returns (resp: Response)
    requires db.Valid()
    modifies db`newsletters
    ensures db.Valid()
    ensures (resp, db.newsletters) == Subscribe(old(db.newsletters), body, id, now)
  {
    match ParseInsertNewsletter(body)
    case Failure(_) =>
      resp := Response(400, ErrorReply("Invalid email address"));
    case Success(n) =>
      var existing := db.GetNewsletterByEmail(n.email);
      if existing.Some? {
        if existing.value.subscribed {
          resp := AlreadySubscribed;
        } else {
          db.ResubscribeNewsletter(n.email);
          resp := WelcomeBack;
        }
      } else {
        var created := db.CreateNewsletterSubscription(n, id, now);
        match created
        case Success(newsletter) =>
          resp := Response(201, NewsletterReply("Successfully subscribed to our newsletter!", newsletter));
        case Failure(_) =>
          resp := SubscribeFailed;
      }
  }

  /**
   * `POST /api/newsletter/unsubscribe`: clears `subscribed` on the address's
   * row, if any, and always reports success once an email is given.
   */
  function Unsubscribe(rows: seq<Newsletter>, body: Body): (r: (Response, seq<Newsletter>))
    ensures !Truthy(Field(body, "email")) ==> r == (Response(400, ErrorReply("Email is required")), rows)
    ensures Truthy(Field(body, "email")) ==> r.0 == Response(200, MessageReply("Successfully unsubscribed from newsletter"))
    ensures |r.1| == |rows|
    ensures forall i :: 0 <= i < |rows| ==>
              r.1[i] == if Truthy(Field(body, "email")) && Field(body, "email") == Str(rows[i].email)
                        then rows[i].(subscribed := false) else rows[i]
    ensures NewslettersValid(rows) ==> NewslettersValid(r.1)
  {
    var email := Field(body, "email");
    if !Truthy(email) then (Response(400, ErrorReply("Email is required")), rows)
    else
      var t := if email.Str? then SetSubscribed(rows, email.s, false) else rows;
      assert NewslettersValid(rows) ==> NewslettersValid(t) by {
        if NewslettersValid(rows) && email.Str? { SetSubscribedKeepsValid(rows, email.s, false); }
      }
      (Response(200, MessageReply("Successfully unsubscribed from newsletter")), t)
  }

  /** Unsubscribing an address that is not on the list changes nothing, and still answers 200. */
  lemma UnsubscribeUnknownAddress(rows: seq<Newsletter>, body: Body, email: string)
    requires email != "" && Field(body, "email") == Str(email)
    requires !HasKey(rows, NewsletterEmail, email)
    ensures Unsubscribe(rows, body) == (Response(200, MessageReply("Successfully unsubscribed from newsletter")), rows)
  {
    SetSubscribedUnknownEmail(rows, email, false);
  }

  /**
   * Unsubscribing and then subscribing again brings the table back to where
   * it was, when the address was subscribed: the corrected handler undoes
   * an unsubscription.
   */
  lemma UnsubscribeThenSubscribeRoundTrip(rows: seq<Newsletter>, body: Body, id: string, now: Timestamp, i: nat)
    requires NewslettersValid(rows)
    requires i < |rows| && rows[i].subscribed && rows[i].email != ""
    requires Field(body, "email") == Str(rows[i].email)
    ensures Subscribe(Unsubscribe(rows, body).1, body, id, now) == (WelcomeBack, rows)
  {
    var u := Unsubscribe(rows, body).1;
    assert forall j :: 0 <= j < |rows| && j != i ==> NewsletterEmail(rows[j]) != NewsletterEmail(rows[i]);
    assert u[i] == rows[i].(subscribed := false);
    ResubscribeRestores(u, body, id, now, i);
    var s := Subscribe(u, body, id, now).1;
    assert |s| == |rows|;
    assert forall j :: 0 <= j < |rows| ==> s[j] == rows[j];
    assert s == rows;
  }

  /**
   * As written, the same round trip ends in a 500: the address stays
   * unsubscribed and the table is left as the unsubscription made it.
   */
  lemma UnsubscribeThenSubscribeFailsAsWritten(rows: seq<Newsletter>, body: Body, id: string, now: Timestamp, i: nat)
    requires NewslettersValid(rows)
    requires i < |rows| && rows[i].subscribed && rows[i].email != ""
    requires Field(body, "email") == Str(rows[i].email)
    ensures SubscribeAsWritten(Unsubscribe(rows, body).1, body, id, now) == (SubscribeFailed, Unsubscribe(rows, body).1)
    ensures !SubscribeAsWritten(Unsubscribe(rows, body).1, body, id, now).1[i].subscribed
  {
    var u := Unsubscribe(rows, body).1;
    assert u[i] == rows[i].(subscribed := false);
    ResubscribeFailsAsWritten(u, body, id, now, i);
  }

  /** `POST /api/newsletter/unsubscribe` against the database. */
  method PostUnsubscribe(db: DatabaseStorage, body: Body) returns (resp: Response)
    requires db.Valid()
    modifies db`newsletters
    ensures db.Valid()
    ensures (resp, db.newsletters) == Unsubscribe(old(db.newsletters), body)
  {
    var email := Field(body, "email");
    if !Truthy(email) {
      resp := Response(400, ErrorReply("Email is required"));
    } else {
      if email.Str? {
        db.UnsubscribeNewsletter(email.s);
      }
      resp := Response(200, MessageReply("Successfully unsubscribed from newsletter"));
    }
  }
}
