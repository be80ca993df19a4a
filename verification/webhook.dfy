/**
 * The Stripe webhook: verification outcome, dispatch on the event type, the
 * table update of `invoice.payment_failed`, and the response.
 */
module Webhook {
  import opened Wrappers
  import opened Records
  import opened Store
  import opened Bridge
  import opened Http

  const CHECKOUT_COMPLETED := "checkout.session.completed"
  const SUBSCRIPTION_DELETED := "customer.subscription.deleted"
  const INVOICE_PAYMENT_FAILED := "invoice.payment_failed"

  /** `session.get("customer_details", {})`: absent, JSON `null`, or an object whose `email` is read. */
  datatype CustomerDetails = NoDetails | NullDetails | Details(email: Field)

  /**
   * The keys of `event["data"]["object"]` the handler reads: a checkout
   * session's `customer_details`, `customer` and `subscription`, a
   * subscription's `id`, an invoice's `subscription`.
   */
  datatype EventObject = EventObject(customerDetails: CustomerDetails, customer: Field, subscription: Field, id: string)

  datatype Event = Event(kind: string, payload: EventObject)

  /**
   * What `stripe.Webhook.construct_event` does with the raw body, the
   * `Stripe-Signature` header and the webhook secret: it yields the event, or
   * raises one of the two errors the handler catches.
   */
  datatype Verification = Verified(event: Event) | Invalid

  /** What a verified event makes the service do besides answering. */
  datatype Effect =
    | NoEffect
    | Run(call: Call)                    // run a provisioning or deprovisioning script
    | PatchStatus(subdomain: string)     // rewrite the table, that subdomain's records marked payment_failed

  datatype Decision =
    | Reject         // 400 {"error": "invalid signature"}
    | Crash          // an uncaught exception in the handler
    | Accept(effect: Effect)  // 200 {"received": true}

  /** The e-mail a checkout session carries: `session.get("customer_details", {}).get("email", "")`. */
  function CheckoutEmail(details: CustomerDetails): (f: Field)
    requires !details.NullDetails?
    ensures details.Details? ==> f == details.email
    ensures details.NoDetails? ==> f == Missing
    ensures Truthy(f) ==> details.Details? && f == details.email
  {
    if details.Details? then details.email else Missing
  }

  /** The decision the handler takes for a verification outcome and the table it reads. */
  function Dispatch(v: Verification, t: Table): (d: Decision)
    ensures d.Reject? <==> v.Invalid?
    ensures d.Crash? <==> v.Verified? && v.event.kind == CHECKOUT_COMPLETED && v.event.payload.customerDetails.NullDetails?
    // checkout.session.completed: provision exactly when the e-mail is a non-empty string, whatever the table holds
    ensures (d.Accept? && d.effect.Run? && d.effect.call.ProvisionCall?) <==>
              v.Verified? && v.event.kind == CHECKOUT_COMPLETED &&
              v.event.payload.customerDetails.Details? && Truthy(v.event.payload.customerDetails.email)
    ensures d.Accept? && d.effect.Run? && d.effect.call.ProvisionCall? ==>
              var o := v.event.payload;
              d.effect.call == ProvisionCall(o.customerDetails.email.text, TextOrEmpty(o.customer), TextOrEmpty(o.subscription))
    // customer.subscription.deleted: deprovision the first customer holding the subscription, if any
    ensures (d.Accept? && d.effect.Run? && d.effect.call.DeprovisionCall?) <==>
              v.Verified? && v.event.kind == SUBSCRIPTION_DELETED &&
              FindCustomerBySubscription(t, v.event.payload.id).Some?
    ensures d.Accept? && d.effect.Run? && d.effect.call.DeprovisionCall? ==>
              d.effect.call.subdomain == FindCustomerBySubscription(t, v.event.payload.id).value.subdomain
    // invoice.payment_failed: patch the table exactly when the subscription id is non-empty and held by a customer
    ensures d.Accept? && d.effect.PatchStatus? <==>
              v.Verified? && v.event.kind == INVOICE_PAYMENT_FAILED && Truthy(v.event.payload.subscription) &&
              FindCustomerBySubscription(t, v.event.payload.subscription.text).Some?
    ensures d.Accept? && d.effect.PatchStatus? ==>
              d.effect.subdomain == FindCustomerBySubscription(t, v.event.payload.subscription.text).value.subdomain
    // any other event type is acknowledged and ignored
    ensures v.Verified? && v.event.kind !in {CHECKOUT_COMPLETED, SUBSCRIPTION_DELETED, INVOICE_PAYMENT_FAILED} ==>
              d == Accept(NoEffect)
  {
    match v
    case Invalid => Reject
    case Verified(event) =>
      var o := event.payload;
      if event.kind == CHECKOUT_COMPLETED then
        if o.customerDetails.NullDetails? then Crash
        else
          var email := CheckoutEmail(o.customerDetails);
          if Truthy(email) then Accept(Run(ProvisionCall(email.text, TextOrEmpty(o.customer), TextOrEmpty(o.subscription))))
          else Accept(NoEffect)
      else if event.kind == SUBSCRIPTION_DELETED then
        match FindCustomerBySubscription(t, o.id)
        case Some(c) => Accept(Run(DeprovisionCall(c.subdomain)))
        case None => Accept(NoEffect)
      else if event.kind == INVOICE_PAYMENT_FAILED then
        if Truthy(o.subscription) then
          match FindCustomerBySubscription(t, o.subscription.text)
          case Some(c) => Accept(PatchStatus(c.subdomain))
          case None => Accept(NoEffect)
        else Accept(NoEffect)
      else Accept(NoEffect)
  }

  /** The answer: 400 on a bad signature, 200 `{"received": true}` for every verified event that does not raise. */
  function Answer(d: Decision): (r: Response)
    ensures d.Reject? ==> r == Response(400, Error("invalid signature"))
    ensures d.Accept? ==> r == Response(200, Received)
    ensures d.Crash? ==> r.code == 500
  {
    match d
    case Reject => Response(400, Error("invalid signature"))
    case Crash => Crashed
    case Accept(_) => Response(200, Received)
  }

  /** Whether the decision rewrites the table file. */
  predicate Writes(d: Decision) {
    d.Accept? && d.effect.PatchStatus?
  }

  /** The table after the decision: only a payment-failed patch writes it. */
  function Apply(t: Table, d: Decision): (t': Table)
    ensures |t'| == |t|
    ensures !Writes(d) ==> t' == t
    ensures Writes(d) ==> t' == WithStatus(t, d.effect.subdomain, PAYMENT_FAILED)
  {
    if Writes(d) then WithStatus(t, d.effect.subdomain, PAYMENT_FAILED) else t
  }

  /** The script a decision runs, if any. */
  function ScriptCall(d: Decision): Option<Call> {
    if d.Accept? && d.effect.Run? then Some(d.effect.call) else None
  }

  /**
   * `webhook()`: answers the request, names the script it runs (its result
   * is ignored), and rewrites the table file on a payment failure.
   */
  method HandleWebhook(db: CustomerDb, v: Verification) returns (response: Response, call: Option<Call>)
    modifies db
    ensures response == Answer(Dispatch(v, old(db.rows)))
    ensures call == ScriptCall(Dispatch(v, old(db.rows)))
    ensures db.rows == Apply(old(db.rows), Dispatch(v, old(db.rows)))
    ensures db.writes == old(db.writes) + if Writes(Dispatch(v, old(db.rows))) then 1 else 0
  {
    if v.Invalid? {
      return Response(400, Error("invalid signature")), None;
    }
    var event := v.event;
    call := None;
    if event.kind == CHECKOUT_COMPLETED {
      var details := event.payload.customerDetails;
      if details.NullDetails? {
        return Crashed, None;
      }
      var email := CheckoutEmail(details);
      if Truthy(email) {
        call := Some(ProvisionCall(email.text, TextOrEmpty(event.payload.customer), TextOrEmpty(event.payload.subscription)));
      }
    } else if event.kind == SUBSCRIPTION_DELETED {
      var customer := FindCustomerBySubscription(db.rows, event.payload.id);
      if customer.Some? {
        call := Some(DeprovisionCall(customer.value.subdomain));
      }
    } else if event.kind == INVOICE_PAYMENT_FAILED {
      var subscription := event.payload.subscription;
      if Truthy(subscription) {
        var customer := FindCustomerBySubscription(db.rows, subscription.text);
        if customer.Some? {
          var list := db.Read();
          MarkPaymentFailed(list, customer.value.subdomain);
          db.Write(list);
        }
      }
    }
    response := Response(200, Received);
  }

  /**
   * A second delivery of the same event, against the table the first
   * delivery left, takes the same decision and leaves the same table: a
   * redelivered payment failure writes nothing new, and a redelivered
   * checkout runs the provisioning script again.
   */
  lemma RedeliveryRepeatsDecision(v: Verification, t: Table)
    ensures Dispatch(v, Apply(t, Dispatch(v, t))) == Dispatch(v, t)
    ensures Apply(Apply(t, Dispatch(v, t)), Dispatch(v, t)) == Apply(t, Dispatch(v, t))
  {
    var d := Dispatch(v, t);
    if d.Accept? && d.effect.PatchStatus? {
      var id := v.event.payload.subscription.text;
      FindAfterWithStatus(t, d.effect.subdomain, PAYMENT_FAILED, SubscriptionColumn, id);
      WithStatusIdempotent(t, d.effect.subdomain, PAYMENT_FAILED);
    }
  }

  /**
   * A checkout decision does not consult the table: a session whose e-mail
   * already has a record still runs the provisioning script.
   */
  lemma CheckoutProvisionsKnownEmail(session: EventObject, t: Table)
    requires session.customerDetails.Details? && Truthy(session.customerDetails.email)
    requires FindCustomerByEmail(t, session.customerDetails.email.text).Some?
    ensures Dispatch(Verified(Event(CHECKOUT_COMPLETED, session)), t) ==
            Accept(Run(ProvisionCall(session.customerDetails.email.text, TextOrEmpty(session.customer), TextOrEmpty(session.subscription))))
  {
  }

  /**
   * A payment failure followed by the deletion of the same subscription
   * leaves the customer's record with status `payment_failed`: the deletion
   * runs the deprovisioning script but never writes the table.
   */
  lemma PaymentFailedThenDeletedKeepsStatus(t: Table, id: string, failed: EventObject, deleted: EventObject)
    requires id != "" && failed.subscription == Text(id) && deleted.id == id
    requires FindCustomerBySubscription(t, id).Some?
    ensures var c := FindCustomerBySubscription(t, id).value;
            var t1 := Apply(t, Dispatch(Verified(Event(INVOICE_PAYMENT_FAILED, failed)), t));
            var d2 := Dispatch(Verified(Event(SUBSCRIPTION_DELETED, deleted)), t1);
            && d2 == Accept(Run(DeprovisionCall(c.subdomain)))
            && Apply(t1, d2) == t1
            && FindCustomerBySubscription(Apply(t1, d2), id) == Some(c.(status := Some(PAYMENT_FAILED)))
  {
    var c := FindCustomerBySubscription(t, id).value;
    FindAfterWithStatus(t, c.subdomain, PAYMENT_FAILED, SubscriptionColumn, id);
  }
}
