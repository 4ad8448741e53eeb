/**
 * The payment webhook: a signature gate, then a dispatch on the event type that upserts or
 * updates rows of `user_subscriptions`, written as a transition function on that table.
 */
module StripeWebhook {
  import opened Wrappers
  import opened Text

  /** A `user_subscriptions` row, without `updated_at`. The period end is in milliseconds. */
  datatype SubscriptionRow = SubscriptionRow(
    customerId: Option<string>,
    subscriptionId: Option<string>,
    status: string,
    periodEndMs: Option<int>)

  /** `user_subscriptions`, keyed by `user_id` (the upsert's conflict key). */
  type Table = map<string, SubscriptionRow>

  /** The fields of a checkout session the handler reads. */
  datatype CheckoutSession = CheckoutSession(
    supabaseUserId: Option<string>, mode: string, subscription: Option<string>, customer: Option<string>)

  /** A subscription object; `currentPeriodEnd` is in seconds. */
  datatype StripeSubscription = StripeSubscription(id: string, status: string, currentPeriodEnd: int)

  datatype Invoice = Invoice(subscription: Option<string>)

  /** A parsed event; each constructor stands for one `event.type`, `Unhandled` for every other type. */
  datatype Event =
    | CheckoutSessionCompleted(session: CheckoutSession)
    | SubscriptionUpdated(subscription: StripeSubscription)
    | SubscriptionDeleted(subscription: StripeSubscription)
    | PaymentFailed(invoice: Invoice)
    | Unhandled(eventType: string)

  /** The endpoint's configuration: `STRIPE_SECRET_KEY` and `STRIPE_WEBHOOK_SECRET`. */
  datatype WebhookEnv = WebhookEnv(stripeKey: Option<string>, webhookSecret: Option<string>)

  /**
   * A delivery: the `stripe-signature` header, whether it verifies the body under the
   * configured secret (the payment library's answer), and the body parsed as an event
   * (no event: the body is not a well-formed event).
   */
  datatype WebhookRequest = WebhookRequest(
    isPreflight: bool, signature: Option<string>, signatureValid: bool, event: Option<Event>)

  datatype WebhookResponse = Preflight | Received | Failure(status: nat, error: string)

  function SecondsToMs(seconds: int): int {
    seconds * 1000
  }

  /** The users whose row carries this subscription id. */
  function MatchingUsers(t: Table, subscriptionId: string): set<string> {
    set u | u in t && t[u].subscriptionId == Some(subscriptionId)
  }

  /** `.update({subscription_status}).eq("stripe_subscription_id", id)`. */
  function SetStatusWhere(t: Table, subscriptionId: string, status: string): Table {
    map u | u in t :: if t[u].subscriptionId == Some(subscriptionId) then t[u].(status := status) else t[u]
  }

  /** `.update({subscription_status, current_period_end}).eq("stripe_subscription_id", id)`. */
  function SetStatusAndEndWhere(t: Table, subscriptionId: string, status: string, periodEndMs: int): Table {
    map u | u in t :: if t[u].subscriptionId == Some(subscriptionId)
                      then t[u].(status := status, periodEndMs := Some(periodEndMs)) else t[u]
  }

  /** The row a completed subscription checkout upserts for its user. */
  function CheckoutRow(session: CheckoutSession, sub: StripeSubscription): SubscriptionRow {
    SubscriptionRow(session.customer, Some(sub.id), sub.status, Some(SecondsToMs(sub.currentPeriodEnd)))
  }

  /**
   * The `switch (event.type)`. `retrieved` is the payment processor's answer to retrieving
   * the checkout's subscription (none: the call failed, which aborts with no write).
   * The result is the new table, or none when the handler throws.
   */
  function Dispatch(t: Table, e: Event, retrieved: Option<StripeSubscription>): (r: Option<Table>)
    ensures r.None? ==> e.CheckoutSessionCompleted? && retrieved.None?
    ensures r.Some? && !e.CheckoutSessionCompleted? ==> r.value.Keys == t.Keys
    ensures r.Some? && e.CheckoutSessionCompleted? ==>
              r.value.Keys == t.Keys || (Truthy(e.session.supabaseUserId) && r.value.Keys == t.Keys + {e.session.supabaseUserId.value})
  {
    match e
    case CheckoutSessionCompleted(session) =>
      if !Truthy(session.supabaseUserId) then Some(t)
      else if session.mode == "subscription" && Truthy(session.subscription) then
        match retrieved
        case None => None
        case Some(sub) => Some(t[session.supabaseUserId.value := CheckoutRow(session, sub)])
      else Some(t)
    case SubscriptionUpdated(sub) =>
      // `maybeSingle()` yields a row only when exactly one row matches.
      if |MatchingUsers(t, sub.id)| == 1 then
        Some(SetStatusAndEndWhere(t, sub.id, sub.status, SecondsToMs(sub.currentPeriodEnd)))
      else Some(t)
    case SubscriptionDeleted(sub) => Some(SetStatusWhere(t, sub.id, "canceled"))
    case PaymentFailed(invoice) =>
      if Truthy(invoice.subscription) then Some(SetStatusWhere(t, invoice.subscription.value, "past_due"))
      else Some(t)
    case Unhandled(_) => Some(t)
  }

  function Process(t: Table, e: Event, retrieved: Option<StripeSubscription>): (WebhookResponse, Table) {
    match Dispatch(t, e, retrieved)
    case None => (Failure(500, "Webhook processing failed"), t)
    case Some(t') => (Received, t')
  }

  /**
   * The handler as written: the signature is checked only when both a secret is configured
   * and the request carries a signature; otherwise the body is used unverified.
   */
  function HandleWebhook(env: WebhookEnv, req: WebhookRequest, t: Table, retrieved: Option<StripeSubscription>)
    : (r: (WebhookResponse, Table))
    ensures req.isPreflight <==> r.0 == Preflight
    ensures r.0 != Received ==> r.1 == t
    ensures !req.isPreflight && !Truthy(env.stripeKey) ==> r == (Failure(500, "Stripe not configured"), t)
    ensures r.0.Failure? && r.0.status == 400 ==>
              Truthy(env.webhookSecret) && Truthy(req.signature) && (!req.signatureValid || req.event.None?)
    ensures r.0 == Received ==> req.event.Some? && Dispatch(t, req.event.value, retrieved) == Some(r.1)
  {
    if req.isPreflight then (Preflight, t)
    else if !Truthy(env.stripeKey) then (Failure(500, "Stripe not configured"), t)
    else if Truthy(env.webhookSecret) && Truthy(req.signature) then
      if !req.signatureValid || req.event.None? then (Failure(400, "Invalid signature"), t)
      else Process(t, req.event.value, retrieved)
    else if req.event.None? then (Failure(500, "Webhook processing failed"), t)
    else Process(t, req.event.value, retrieved)
  }

  /** The handler with the gate as intended: once a secret is configured, every delivery must
      carry a signature that verifies. */
  function HandleWebhookStrict(env: WebhookEnv, req: WebhookRequest, t: Table, retrieved: Option<StripeSubscription>)
    : (r: (WebhookResponse, Table))
    ensures req.isPreflight || (Truthy(env.webhookSecret) && !(Truthy(req.signature) && req.signatureValid)) ==> r.1 == t
  {
    if req.isPreflight then (Preflight, t)
    else if !Truthy(env.stripeKey) then (Failure(500, "Stripe not configured"), t)
    else if Truthy(env.webhookSecret) then
      if !Truthy(req.signature) || !req.signatureValid || req.event.None? then (Failure(400, "Invalid signature"), t)
      else Process(t, req.event.value, retrieved)
    else if req.event.None? then (Failure(500, "Webhook processing failed"), t)
    else Process(t, req.event.value, retrieved)
  }

  // ----- The gate -----

  /** A signature that does not verify is answered with 400 and leaves the table as it was. */
  lemma BadSignatureRejected(env: WebhookEnv, req: WebhookRequest, t: Table, retrieved: Option<StripeSubscription>)
    requires !req.isPreflight && Truthy(env.stripeKey)
    requires Truthy(env.webhookSecret) && Truthy(req.signature) && !req.signatureValid
    ensures HandleWebhook(env, req, t, retrieved) == (Failure(400, "Invalid signature"), t)
    ensures HandleWebhookStrict(env, req, t, retrieved) == (Failure(400, "Invalid signature"), t)
  {
  }

  /** As written, an unsigned delivery is processed although a secret is configured: here it
      cancels a subscription. */
  lemma UnsignedEventAccepted()
    ensures var env := WebhookEnv(Some("sk_live"), Some("whsec_1"));
            var req := WebhookRequest(false, None, false, Some(SubscriptionDeleted(StripeSubscription("sub_1", "active", 0))));
            var t := map["user_1" := SubscriptionRow(Some("cus_1"), Some("sub_1"), "active", Some(0))];
            HandleWebhook(env, req, t, None).0 == Received
            && HandleWebhook(env, req, t, None).1["user_1"].status == "canceled"
  {
    var t := map["user_1" := SubscriptionRow(Some("cus_1"), Some("sub_1"), "active", Some(0))];
    assert SetStatusWhere(t, "sub_1", "canceled")["user_1"].status == "canceled";
  }

  /** The intended gate: with a secret configured, an event that is unsigned or badly signed is
      refused with 400 and changes nothing; on every other delivery it agrees with the handler. */
  lemma StrictGateSpec(env: WebhookEnv, req: WebhookRequest, t: Table, retrieved: Option<StripeSubscription>)
    ensures !req.isPreflight && Truthy(env.stripeKey) && Truthy(env.webhookSecret)
            && !(Truthy(req.signature) && req.signatureValid)
            ==> HandleWebhookStrict(env, req, t, retrieved) == (Failure(400, "Invalid signature"), t)
    ensures Truthy(req.signature) || !Truthy(env.webhookSecret)
            ==> HandleWebhookStrict(env, req, t, retrieved) == HandleWebhook(env, req, t, retrieved)
  {
  }

  /** An event type the handler does not know still gets 200 and changes nothing. */
  lemma UnhandledIsNoOp(env: WebhookEnv, req: WebhookRequest, t: Table, retrieved: Option<StripeSubscription>)
    requires !req.isPreflight && Truthy(env.stripeKey)
    requires req.event.Some? && req.event.value.Unhandled?
    requires Truthy(env.webhookSecret) ==> Truthy(req.signature) && req.signatureValid
    ensures HandleWebhookStrict(env, req, t, retrieved) == (Received, t)
  {
  }

  // ----- The event branches -----

  /** A checkout without a user id in its metadata, not in subscription mode, or without a
      subscription, changes nothing. */
  lemma CheckoutIgnored(t: Table, session: CheckoutSession, retrieved: Option<StripeSubscription>)
    requires !Truthy(session.supabaseUserId) || session.mode != "subscription" || !Truthy(session.subscription)
    ensures Dispatch(t, CheckoutSessionCompleted(session), retrieved) == Some(t)
  {
  }

  /** A completed subscription checkout upserts its user's row with the customer, the
      subscription id and status, and the period end converted to milliseconds; no other row changes. */
  lemma CheckoutUpserts(t: Table, session: CheckoutSession, sub: StripeSubscription)
    requires Truthy(session.supabaseUserId) && session.mode == "subscription" && Truthy(session.subscription)
    ensures var r := Dispatch(t, CheckoutSessionCompleted(session), Some(sub));
            var u := session.supabaseUserId.value;
            && r.Some? && r.value.Keys == t.Keys + {u}
            && r.value[u] == SubscriptionRow(session.customer, Some(sub.id), sub.status, Some(sub.currentPeriodEnd * 1000))
            && forall v :: v in t && v != u ==> r.value[v] == t[v]
  {
  }

  /** An update changes only status and period end, only on rows that already carry the
      subscription id, and never adds a row; it acts only when exactly one row matches. */
  lemma UpdatedSpec(t: Table, sub: StripeSubscription, retrieved: Option<StripeSubscription>, u: string)
    ensures var r := Dispatch(t, SubscriptionUpdated(sub), retrieved).value;
            && Dispatch(t, SubscriptionUpdated(sub), retrieved).Some?
            && r.Keys == t.Keys
            && (u in t && (t[u].subscriptionId != Some(sub.id) || |MatchingUsers(t, sub.id)| != 1) ==> r[u] == t[u])
            && (u in t && t[u].subscriptionId == Some(sub.id) && |MatchingUsers(t, sub.id)| == 1 ==>
                  r[u] == t[u].(status := sub.status, periodEndMs := Some(sub.currentPeriodEnd * 1000)))
  {
  }

  /** A deletion marks every row with that subscription id canceled, keeping its period end. */
  lemma DeletedSpec(t: Table, sub: StripeSubscription, retrieved: Option<StripeSubscription>, u: string)
    ensures var r := Dispatch(t, SubscriptionDeleted(sub), retrieved).value;
            && Dispatch(t, SubscriptionDeleted(sub), retrieved).Some?
            && r.Keys == t.Keys
            && (u in t && t[u].subscriptionId == Some(sub.id) ==>
                  r[u].status == "canceled" && r[u].periodEndMs == t[u].periodEndMs && r[u] == t[u].(status := "canceled"))
            && (u in t && t[u].subscriptionId != Some(sub.id) ==> r[u] == t[u])
  {
  }

  /** A failed payment marks the named subscription's rows past due, and does nothing when the
      invoice names no subscription. */
  lemma PaymentFailedSpec(t: Table, invoice: Invoice, retrieved: Option<StripeSubscription>, u: string)
    ensures var r := Dispatch(t, PaymentFailed(invoice), retrieved).value;
            && Dispatch(t, PaymentFailed(invoice), retrieved).Some?
            && r.Keys == t.Keys
            && (!Truthy(invoice.subscription) ==> r == t)
            && (Truthy(invoice.subscription) && u in t && t[u].subscriptionId == invoice.subscription ==>
                  r[u] == t[u].(status := "past_due"))
            && (u in t && t[u].subscriptionId != invoice.subscription ==> r[u] == t[u])
  {
  }

  // ----- Replaying an event -----

  lemma SetStatusAndEndKeepsMatches(t: Table, id: string, status: string, periodEndMs: int)
    ensures MatchingUsers(SetStatusAndEndWhere(t, id, status, periodEndMs), id) == MatchingUsers(t, id)
  {
    var t' := SetStatusAndEndWhere(t, id, status, periodEndMs);
    forall u ensures u in MatchingUsers(t', id) <==> u in MatchingUsers(t, id) {
      if u in t {
        assert t'[u].subscriptionId == t[u].subscriptionId;
      }
    }
  }

  /** Every branch writes values fixed by the event and the retrieved subscription, so applying
      an event twice with the same retrieved subscription leaves the table as applying it once
      (timestamps aside). A redelivered checkout retrieves the subscription again, and may see
      another status. */
  lemma DispatchIdempotent(t: Table, e: Event, retrieved: Option<StripeSubscription>)
    requires Dispatch(t, e, retrieved).Some?
    ensures Dispatch(Dispatch(t, e, retrieved).value, e, retrieved) == Dispatch(t, e, retrieved)
  {
    var t1 := Dispatch(t, e, retrieved).value;
    match e
    case CheckoutSessionCompleted(session) =>
      if Truthy(session.supabaseUserId) && session.mode == "subscription" && Truthy(session.subscription)
         && retrieved.Some? {
        assert t1[session.supabaseUserId.value := CheckoutRow(session, retrieved.value)] == t1;
      }
    case SubscriptionUpdated(sub) =>
      if |MatchingUsers(t, sub.id)| == 1 {
        SetStatusAndEndKeepsMatches(t, sub.id, sub.status, SecondsToMs(sub.currentPeriodEnd));
        assert SetStatusAndEndWhere(t1, sub.id, sub.status, SecondsToMs(sub.currentPeriodEnd)) == t1;
      }
    case SubscriptionDeleted(sub) =>
      assert SetStatusWhere(t1, sub.id, "canceled") == t1;
    case PaymentFailed(invoice) =>
      if Truthy(invoice.subscription) {
        assert SetStatusWhere(t1, invoice.subscription.value, "past_due") == t1;
      }
    case Unhandled(_) =>
  }

  /** The same holds for whole deliveries through the intended gate. */
  lemma HandleStrictIdempotent(env: WebhookEnv, req: WebhookRequest, t: Table, retrieved: Option<StripeSubscription>)
    ensures var (resp, t1) := HandleWebhookStrict(env, req, t, retrieved);
            HandleWebhookStrict(env, req, t1, retrieved) == (resp, t1)
  {
    var (resp, t1) := HandleWebhookStrict(env, req, t, retrieved);
    if req.event.Some? && Dispatch(t, req.event.value, retrieved).Some? {
      DispatchIdempotent(t, req.event.value, retrieved);
    }
  }
}
