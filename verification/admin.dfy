/**
 * The admin API: the bearer-token gate every admin endpoint sits behind, and
 * the listing, provisioning and deprovisioning handlers.
 */
module Admin {
  import opened Wrappers
  import opened Text
  import opened Records
  import opened Bridge
  import opened Http

  /** The three ways the gate can decide. */
  datatype Gate = NotConfigured | Unauthorized | Pass

  /**
   * `_require_admin`: with no configured key every request is refused as a
   * misconfiguration; otherwise only the exact header `Bearer <key>` passes.
   * A missing header reads as the empty string.
   */
  function CheckAdmin(apiKey: string, authorization: Option<string>): (g: Gate)
    ensures g == NotConfigured <==> apiKey == ""
    ensures g == Pass <==> apiKey != "" && authorization == Some("Bearer " + apiKey)
    ensures g == Unauthorized <==> apiKey != "" && authorization != Some("Bearer " + apiKey)
  {
    if apiKey == "" then NotConfigured
    else if authorization.GetOr("") != "Bearer " + apiKey then Unauthorized
    else Pass
  }

  /** The answer of a refusing gate. */
  function Refusal(g: Gate): (r: Response)
    requires g != Pass
    ensures g == NotConfigured ==> r == Response(500, Error("admin API key not configured"))
    ensures g == Unauthorized ==> r == Response(401, Error("unauthorized"))
  {
    if g == NotConfigured then Response(500, Error("admin API key not configured"))
    else Response(401, Error("unauthorized"))
  }

  /** What an admin endpoint answers and which script it runs, if any. */
  datatype Reply = Reply(response: Response, call: Option<Call>)

  /** The decorated endpoint: the handler's reply when the gate passes, the refusal (and no script) otherwise. */
  function Guarded(g: Gate, handler: Reply): (r: Reply)
    ensures g == Pass ==> r == handler
    ensures g != Pass ==> r == Reply(Refusal(g), None)
    ensures g != Pass ==> r.call.None? && r.response.code in {401, 500} && r.response.body.Error?
  {
    if g == Pass then handler else Reply(Refusal(g), None)
  }

  /**
   * The body of a POST as `request.get_json(force=True)` sees it: not JSON
   * at all, JSON that is not an object, or an object whose one read key is
   * given.
   */
  datatype RequestJson = Unparsable | NotAnObject | JsonObject(field: Field)

  /** A normalised request value, or the response that ends the request before it is read. */
  datatype Result = Value(value: string) | Failure(response: Response)

  /** How a finished script maps to the admin answer: 500 with the error text, or 200 with the message. */
  function Report(o: Outcome): (r: Response)
    ensures o.Failed? ==> r == Response(500, Error(o.output))
    ensures o.Succeeded? ==> r == Response(200, Message(o.output))
  {
    match o
    case Failed(output) => Response(500, Error(output))
    case Succeeded(output) => Response(200, Message(output))
  }

  /**
   * The value of the read key after `.get(key, "").strip().lower()`, or the
   * answer when the request fails first: the body does not parse, or `.get`
   * or `.strip()` is called on JSON `null` or a non-object.
   */
  function NormalisedField(body: RequestJson): (r: Result)
    ensures r.Failure? <==> !body.JsonObject? || body.field.Null?
    ensures r.Failure? ==> r.response == (if body.Unparsable? then BadRequest else Crashed)
    ensures r.Value? ==> r.value == (if body.field.Text? then Normalise(body.field.text) else "")
  {
    match body
    case Unparsable => Failure(BadRequest)
    case NotAnObject => Failure(Crashed)
    case JsonObject(Null) => Failure(Crashed)
    case JsonObject(Missing) => Value("")
    case JsonObject(Text(s)) => Value(Normalise(s))
  }


  /**
   * The body of `admin_provision`: normalise the e-mail; refuse an empty
   * one; refuse one the table already holds; otherwise run the provisioning
   * script with the e-mail alone and report its outcome.
   */
  function ProvisionHandler(body: RequestJson, t: Table, run: RunResult): (r: Reply)
    ensures r.call.Some? ==> r.call.value.ProvisionCall? && r.call.value.customerId == "" && r.call.value.subscriptionId == ""
    ensures r.call.Some? ==> r.response == Report(Complete(run))
    ensures NormalisedField(body).Failure? ==> r == Reply(NormalisedField(body).response, None)
    ensures NormalisedField(body) == Value("") ==> r == Reply(Response(400, Error("email required")), None)
    ensures r.call.Some? <==>
              NormalisedField(body).Value? && NormalisedField(body).value != "" &&
              FindCustomerByEmail(t, NormalisedField(body).value).None?
    ensures r.call.Some? ==> r.call.value.email == NormalisedField(body).value
  {
    match NormalisedField(body)
    case Failure(response) => Reply(response, None)
    case Value(email) =>
      if email == "" then Reply(Response(400, Error("email required")), None)
      else if FindCustomerByEmail(t, email).Some? then Reply(Response(400, Error("customer with this email already exists")), None)
      else Reply(Report(Complete(run)), Some(ProvisionCall(email, "", "")))
  }

  /**
   * `POST /admin/provision`. The provisioning script runs exactly when the
   * gate passes, the normalised e-mail is non-empty and no record holds it;
   * it gets that normalised e-mail and no Stripe ids.
   */
  function AdminProvision(apiKey: string, authorization: Option<string>, body: RequestJson, t: Table, run: RunResult): (r: Reply)
    ensures CheckAdmin(apiKey, authorization) != Pass ==> r == Reply(Refusal(CheckAdmin(apiKey, authorization)), None)
    ensures r.call.Some? <==>
              && CheckAdmin(apiKey, authorization) == Pass
              && body.JsonObject? && body.field.Text? && Normalise(body.field.text) != ""
              && forall i :: 0 <= i < |t| ==> t[i].email != Some(Normalise(body.field.text))
    ensures r.call.Some? ==> r.call == Some(ProvisionCall(Normalise(body.field.text), "", ""))
    ensures r.call.Some? ==> r.response == Report(Complete(run))
    ensures CheckAdmin(apiKey, authorization) == Pass && NormalisedField(body).Failure? ==>
              r == Reply(NormalisedField(body).response, None)
    ensures CheckAdmin(apiKey, authorization) == Pass && NormalisedField(body) == Value("") ==>
              r == Reply(Response(400, Error("email required")), None)
    ensures r.response.code == 200 ==> r.call.Some? && run.returncode == 0
  {
    Guarded(CheckAdmin(apiKey, authorization), ProvisionHandler(body, t, run))
  }

  /**
   * An e-mail that normalises to one already in the table is refused with
   * the duplicate error, and no script runs.
   */
  lemma AdminProvisionRejectsKnownEmail(apiKey: string, authorization: Option<string>, s: string, t: Table, run: RunResult, i: int)
    requires CheckAdmin(apiKey, authorization) == Pass
    requires Normalise(s) != "" && 0 <= i < |t| && t[i].email == Some(Normalise(s))
    ensures AdminProvision(apiKey, authorization, JsonObject(Text(s)), t, run) ==
            Reply(Response(400, Error("customer with this email already exists")), None)
  {
  }

  /**
   * The body of `admin_deprovision`: normalise the subdomain; refuse an
   * empty one; otherwise run the deprovisioning script and report its
   * outcome. The table is not consulted, so an unknown subdomain reaches the
   * script too.
   */
  function DeprovisionHandler(body: RequestJson, run: RunResult): (r: Reply)
    ensures r.call.Some? ==> r.call.value.DeprovisionCall? && r.response == Report(Complete(run))
    ensures NormalisedField(body).Failure? ==> r == Reply(NormalisedField(body).response, None)
    ensures NormalisedField(body) == Value("") ==> r == Reply(Response(400, Error("subdomain required")), None)
    ensures r.call.Some? <==> NormalisedField(body).Value? && NormalisedField(body).value != ""
    ensures r.call.Some? ==> r.call.value.subdomain == NormalisedField(body).value
  {
    match NormalisedField(body)
    case Failure(response) => Reply(response, None)
    case Value(subdomain) =>
      if subdomain == "" then Reply(Response(400, Error("subdomain required")), None)
      else Reply(Report(Complete(run)), Some(DeprovisionCall(subdomain)))
  }

  /**
   * `POST /admin/deprovision`. The deprovisioning script runs exactly when
   * the gate passes and the normalised subdomain is non-empty, whatever the
   * table holds.
   */
  function AdminDeprovision(apiKey: string, authorization: Option<string>, body: RequestJson, run: RunResult): (r: Reply)
    ensures CheckAdmin(apiKey, authorization) != Pass ==> r == Reply(Refusal(CheckAdmin(apiKey, authorization)), None)
    ensures r.call.Some? <==>
              CheckAdmin(apiKey, authorization) == Pass && body.JsonObject? && body.field.Text? && Normalise(body.field.text) != ""
    ensures r.call.Some? ==> r.call == Some(DeprovisionCall(Normalise(body.field.text)))
    ensures r.call.Some? ==> r.response == Report(Complete(run))
    ensures CheckAdmin(apiKey, authorization) == Pass && NormalisedField(body).Failure? ==>
              r == Reply(NormalisedField(body).response, None)
    ensures CheckAdmin(apiKey, authorization) == Pass && NormalisedField(body) == Value("") ==>
              r == Reply(Response(400, Error("subdomain required")), None)
  {
    Guarded(CheckAdmin(apiKey, authorization), DeprovisionHandler(body, run))
  }

  /** `GET /admin/customers`: the whole table, behind the gate. */
  function AdminCustomers(apiKey: string, authorization: Option<string>, t: Table): (r: Response)
    ensures CheckAdmin(apiKey, authorization) == Pass ==> r == Response(200, Customers(t))
    ensures CheckAdmin(apiKey, authorization) != Pass ==> r == Refusal(CheckAdmin(apiKey, authorization))
    ensures CheckAdmin(apiKey, authorization) != Pass ==> r.code in {401, 500} && !r.body.Customers?
  {
    Guarded(CheckAdmin(apiKey, authorization), Reply(Response(200, Customers(t)), None)).response
  }
}
