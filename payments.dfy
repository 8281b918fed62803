/** Payments: the amount charged for a token package, and the Stripe
    webhook's rule for crediting a user after a completed checkout.  Stripe
    itself, its signature check and the values of the token packages are
    inputs. */
module Payments {
  import opened JsValue
  import opened Store

  // ----------------------------------------------------- payment intents

  /** The values of the `TokenPackages` enum. */
  datatype PackageKeys = PackageKeys(starter: string, pro: string, expert: string)

  /** The switch on the package: no package (falsy or `"free"`), one of the
      three packages with its price in cents, or another value. */
  datatype AmountChoice = PackageMissing | UnknownPackage | Amount(cents: nat)

  /** `if (!tokenPackage || tokenPackage === "free")`, then the `switch`
      with strict equality, cases in the order starter, pro, expert. */
  function PackageAmount(tokenPackage: Json, keys: PackageKeys): AmountChoice
  {
    if !Truthy(tokenPackage) || tokenPackage == JStr("free") then PackageMissing
    else if tokenPackage == JStr(keys.starter) then Amount(499)
    else if tokenPackage == JStr(keys.pro) then Amount(999)
    else if tokenPackage == JStr(keys.expert) then Amount(1999)
    else UnknownPackage
  }

  /** The refusal comes first and cannot be bypassed: a falsy package or
      `"free"` is "required" whatever the enum holds; a package is priced
      exactly when it is a string equal to one of the three keys, and then
      the first key that matches decides the price; any other value is
      "invalid". */
  lemma PackageAmountMeaning(tokenPackage: Json, keys: PackageKeys)
    ensures PackageAmount(tokenPackage, keys).PackageMissing? <==>
      !Truthy(tokenPackage) || tokenPackage == JStr("free")
    ensures PackageAmount(tokenPackage, keys).Amount? <==>
      Truthy(tokenPackage) && tokenPackage != JStr("free") &&
      tokenPackage in [JStr(keys.starter), JStr(keys.pro), JStr(keys.expert)]
    ensures PackageAmount(tokenPackage, keys).Amount? ==>
      PackageAmount(tokenPackage, keys).cents in {499, 999, 1999}
    ensures Truthy(tokenPackage) && tokenPackage != JStr("free") ==>
      (tokenPackage == JStr(keys.starter) ==> PackageAmount(tokenPackage, keys) == Amount(499)) &&
      (tokenPackage == JStr(keys.pro) && keys.pro != keys.starter ==> PackageAmount(tokenPackage, keys) == Amount(999)) &&
      (tokenPackage == JStr(keys.expert) && keys.expert != keys.starter && keys.expert != keys.pro ==>
         PackageAmount(tokenPackage, keys) == Amount(1999))
  {
  }

  /** The request body: the package, and the currency when it was given
      (an explicit `null` is given; only an absent one takes the default). */
  datatype PaymentBody = PaymentBody(tokenPackage: Json, currency: Option<Json>)

  /** `const { tokenPackage, currency = "usd" } = ...`. */
  function CurrencyOf(b: PaymentBody): (c: Json)
    ensures b.currency.None? ==> c == JStr("usd")
    ensures b.currency.Some? ==> c == b.currency.value
  {
    if b.currency.Some? then b.currency.value else JStr("usd")
  }

  datatype PaymentReply =
    | PackageRequired              // 400 "tokenPackage is required"
    | InvalidPackage               // 400 "Invalid token package"
    | IntentCreated(clientSecret: Json)
    | PaymentFailed                // 500 (a body that is not JSON, or Stripe threw)

  function PaymentStatusCode(r: PaymentReply): int
  {
    match r
    case PackageRequired => 400
    case InvalidPackage => 400
    case IntentCreated(_) => 201
    case PaymentFailed => 500
  }

  /** `/create_payment_intent`: `stripe` answers the client secret of the
      intent created for an amount and a currency, or `None` when it
      throws. */
  function CreatePaymentIntent(body: Option<PaymentBody>, keys: PackageKeys,
                               stripe: (nat, Json) -> Option<Json>): PaymentReply
  {
    if body.None? then PaymentFailed
    else
      match PackageAmount(body.value.tokenPackage, keys)
      case PackageMissing => PackageRequired
      case UnknownPackage => InvalidPackage
      case Amount(cents) =>
        var intent := stripe(cents, CurrencyOf(body.value));
        if intent.Some? then IntentCreated(intent.value) else PaymentFailed
  }

  /** An intent is created only for one of the three prices, in the currency
      asked for (US dollars by default), and Stripe is never asked for an
      unknown or missing package. */
  lemma IntentOnlyForPackages(body: Option<PaymentBody>, keys: PackageKeys, stripe: (nat, Json) -> Option<Json>)
    ensures var r := CreatePaymentIntent(body, keys, stripe);
      r.IntentCreated? <==>
        body.Some? && PackageAmount(body.value.tokenPackage, keys).Amount? &&
        stripe(PackageAmount(body.value.tokenPackage, keys).cents, CurrencyOf(body.value)).Some?
    ensures var r := CreatePaymentIntent(body, keys, stripe);
      r.IntentCreated? ==>
        PaymentStatusCode(r) == 201 &&
        PackageAmount(body.value.tokenPackage, keys).cents in {499, 999, 1999} &&
        r.clientSecret == stripe(PackageAmount(body.value.tokenPackage, keys).cents, CurrencyOf(body.value)).value
    ensures var r := CreatePaymentIntent(body, keys, stripe);
      body.Some? && (!Truthy(body.value.tokenPackage) || body.value.tokenPackage == JStr("free")) ==>
        r == PackageRequired && PaymentStatusCode(r) == 400
  {
    if body.Some? {
      PackageAmountMeaning(body.value.tokenPackage, keys);
    }
  }

  // ---------------------------------------------------------------- webhook

  /** An entry of `tokenPackages`: the Stripe price and the credits it buys. */
  datatype Plan = Plan(priceId: string, tokens: int)

  /** What the handler reads off a checkout session; `customer` is `None`
      when the session has none. */
  datatype CheckoutSession = CheckoutSession(
    customer: Option<string>,
    paymentStatus: string,
    metadataPriceId: Json,      // session.metadata?.priceId
    lineItemPriceId: Json)      // session.line_items?.data[0]?.price?.id

  datatype StripeEvent = CheckoutCompleted(session: CheckoutSession) | OtherEvent(eventType: string)

  /** The price id from the metadata, or from the first line item when the
      metadata one is falsy. */
  function PriceIdOf(s: CheckoutSession): (p: Json)
    ensures Truthy(s.metadataPriceId) ==> p == s.metadataPriceId
    ensures !Truthy(s.metadataPriceId) ==> p == s.lineItemPriceId
  {
    if Truthy(s.metadataPriceId) then s.metadataPriceId else s.lineItemPriceId
  }

  /** `tokenPackages.find((pkg) => pkg.priceId === priceId)`. */
  function FindPlan(plans: seq<Plan>, priceId: Json): (r: Option<Plan>)
    ensures r.Some? ==> r.value in plans && JStr(r.value.priceId) == priceId
    ensures r.None? ==> forall i :: 0 <= i < |plans| ==> JStr(plans[i].priceId) != priceId
  {
    if |plans| == 0 then None
    else if JStr(plans[0].priceId) == priceId then Some(plans[0])
    else FindPlan(plans[1..], priceId)
  }

  /** `find` answers the first plan with the price. */
  lemma {:induction false} FindPlanFirst(plans: seq<Plan>, priceId: Json, k: nat)
    requires k < |plans| && JStr(plans[k].priceId) == priceId
    requires forall j :: 0 <= j < k ==> JStr(plans[j].priceId) != priceId
    ensures FindPlan(plans, priceId) == Some(plans[k])
  {
    if k > 0 {
      FindPlanFirst(plans[1..], priceId, k - 1);
    }
  }

  /** `.eq("stripe_customer_id", customerId)`. */
  function CustomerIs(customerId: string): UserRow -> bool
  {
    (u: UserRow) => u.stripeCustomerId == Some(customerId)
  }

  /** The outcomes of the webhook's two queries: the credit lookup failed,
      and what the update came back with. */
  datatype WebhookWorld = WebhookWorld(lookupFails: bool, update: WriteOutcome)

  /** The credit update the handler issues for an event, if any. */
  datatype Credit = NoCredit | Credit(customerId: string, credits: int)

  /** The credit rule: a completed checkout whose price has a plan, that is
      paid, and whose customer is exactly one user gets the user's credits
      plus the plan's tokens. */
  function CreditFor(users: seq<UserRow>, e: StripeEvent, plans: seq<Plan>, w: WebhookWorld): Credit
  {
    if !e.CheckoutCompleted? then NoCredit
    else
      var s := e.session;
      var plan := FindPlan(plans, PriceIdOf(s));
      if plan.None? || s.paymentStatus != "paid" || w.lookupFails || s.customer.None? then NoCredit
      else
        var user := Single(users, CustomerIs(s.customer.value));
        if user.None? then NoCredit
        else Credit(s.customer.value, user.value.credits + plan.value.tokens)
  }

  /** A user is credited exactly when the event is a completed checkout with
      a plan for its price, the payment is `"paid"`, the lookup went through
      and exactly one user has the session's customer id; the new balance is
      that user's balance plus the plan's tokens. */
  lemma CreditRule(users: seq<UserRow>, e: StripeEvent, plans: seq<Plan>, w: WebhookWorld)
    ensures CreditFor(users, e, plans, w).Credit? <==>
      e.CheckoutCompleted? && FindPlan(plans, PriceIdOf(e.session)).Some? &&
      e.session.paymentStatus == "paid" && !w.lookupFails && e.session.customer.Some? &&
      |Matching(users, CustomerIs(e.session.customer.value))| == 1
    ensures var c := CreditFor(users, e, plans, w);
      c.Credit? ==>
        c.customerId == e.session.customer.value &&
        exists i :: 0 <= i < |users| && users[i].stripeCustomerId == Some(c.customerId) &&
          c.credits == users[i].credits + FindPlan(plans, PriceIdOf(e.session)).value.tokens &&
          forall j :: 0 <= j < |users| && j != i ==> users[j].stripeCustomerId != Some(c.customerId)
  {
    if CreditFor(users, e, plans, w).Credit? {
      var m := CustomerIs(e.session.customer.value);
      SingleMeaning(users, m);
      var hits := Matching(users, m);
      var i := hits[0];
      assert users[i].stripeCustomerId == Some(e.session.customer.value);
      forall j | 0 <= j < |users| && j != i
        ensures users[j].stripeCustomerId != Some(e.session.customer.value)
      {
        var lo, hi := if i < j then i else j, if i < j then j else i;
        assert !(m(users[lo]) && m(users[hi]));
      }
    }
  }

  /** Signature checks: no `stripe-signature` header, or Stripe refusing it,
      is a 400; otherwise the handler sets no status of its own. */
  datatype WebhookReply = MissingSignature | SignatureRejected | Processed

  function WebhookStatusCode(r: WebhookReply): Option<int>
  {
    match r
    case MissingSignature => Some(400)
    case SignatureRejected => Some(400)
    case Processed => None
  }

  /** The verified event: `construct` answers the event of a raw body and a
      signature, or `None` when verification throws. */
  function VerifiedEvent(signature: Option<string>, rawBody: string,
                         construct: (string, string) -> Option<StripeEvent>): Option<StripeEvent>
  {
    if signature.None? || signature.value == "" then None else construct(rawBody, signature.value)
  }

  function WebhookReplyOf(signature: Option<string>, rawBody: string,
                          construct: (string, string) -> Option<StripeEvent>): WebhookReply
  {
    if signature.None? || signature.value == "" then MissingSignature
    else if construct(rawBody, signature.value).None? then SignatureRejected
    else Processed
  }

  /** The credit update of a request, if it carries a verified event. */
  function WebhookCredit(users: seq<UserRow>, signature: Option<string>, rawBody: string,
                         construct: (string, string) -> Option<StripeEvent>,
                         plans: seq<Plan>, w: WebhookWorld): Credit
  {
    var e := VerifiedEvent(signature, rawBody, construct);
    if e.None? then NoCredit else CreditFor(users, e.value, plans, w)
  }

  /** The users table after a credit update with an outcome. */
  function CreditedUsers(users: seq<UserRow>, c: Credit, outcome: WriteOutcome): seq<UserRow>
  {
    if c.Credit? && outcome == Written then WithPaidCredits(users, c.customerId, c.credits) else users
  }

  /** The writes of a credit update. */
  function CreditLog(c: Credit): seq<Write>
  {
    if c.Credit? then [PaidCreditsUpdate(c.customerId, c.credits)] else []
  }

  /** `/api/webhook/stripe`. */
  method StripeWebhook(db: Database, signature: Option<string>, rawBody: string,
                       construct: (string, string) -> Option<StripeEvent>,
                       plans: seq<Plan>, w: WebhookWorld)
    returns (reply: WebhookReply)
    modifies db`users, db`log
    ensures reply == WebhookReplyOf(signature, rawBody, construct)
    ensures db.log == old(db.log) + CreditLog(WebhookCredit(old(db.users), signature, rawBody, construct, plans, w))
    ensures db.users == CreditedUsers(old(db.users), WebhookCredit(old(db.users), signature, rawBody, construct, plans, w), w.update)
  {
    if signature.None? || signature.value == "" {
      return MissingSignature;
    }
    var event := construct(rawBody, signature.value);
    if event.None? {
      return SignatureRejected;
    }
    reply := Processed;
    var c := CreditFor(db.users, event.value, plans, w);
    if c.Credit? {
      db.SetPaidCredits(c.customerId, c.credits, w.update);
    }
  }

  /** Only a request with a verified event can credit anyone. */
  lemma UnverifiedNeverCredits(users: seq<UserRow>, signature: Option<string>, rawBody: string,
                               construct: (string, string) -> Option<StripeEvent>,
                               plans: seq<Plan>, w: WebhookWorld)
    ensures WebhookReplyOf(signature, rawBody, construct) != Processed ==>
      WebhookCredit(users, signature, rawBody, construct, plans, w) == NoCredit &&
      WebhookStatusCode(WebhookReplyOf(signature, rawBody, construct)) == Some(400)
    ensures WebhookReplyOf(signature, rawBody, construct) == Processed <==>
      VerifiedEvent(signature, rawBody, construct).Some?
  {
  }

  /** The credit update touches only the rows of that customer. */
  lemma CreditedUsersAreMatched(users: seq<UserRow>, c: Credit, outcome: WriteOutcome)
    ensures var r := CreditedUsers(users, c, outcome);
      |r| == |users| &&
      forall i :: 0 <= i < |users| ==>
        if c.Credit? && outcome == Written && users[i].stripeCustomerId == Some(c.customerId)
        then r[i] == users[i].(credits := c.credits, paid := true)
        else r[i] == users[i]
  {
  }

  /** Nothing records a handled event: the same event delivered again, after
      the first credit went in, credits the plan's tokens a second time. */
  lemma RepeatedEventCreditsAgain(users: seq<UserRow>, e: StripeEvent, plans: seq<Plan>, w: WebhookWorld)
    requires CreditFor(users, e, plans, w).Credit?
    ensures var c := CreditFor(users, e, plans, w);
      var again := CreditFor(CreditedUsers(users, c, Written), e, plans, w);
      again.Credit? && again.customerId == c.customerId &&
      again.credits == c.credits + FindPlan(plans, PriceIdOf(e.session)).value.tokens
  {
    var c := CreditFor(users, e, plans, w);
    var m := CustomerIs(c.customerId);
    var users' := CreditedUsers(users, c, Written);
    assert users' == WithPaidCredits(users, c.customerId, c.credits);
    assert forall i :: 0 <= i < |users| ==> m(users[i]) == m(users'[i]);
    MatchingSameHits(users, users', m);
    var i := Matching(users, m)[0];
    assert Single(users', m) == Some(users'[i]);
    assert users'[i].credits == c.credits;
  }
}
