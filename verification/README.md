# Billing webhook and admin API of the hosting platform, modelled in Dafny

The service turns Stripe billing events into tenant lifecycle actions. It
keeps a customer table in `customers.json`, runs a provisioning script when a
checkout completes, runs a deprovisioning script when a subscription is
deleted, and marks a customer `payment_failed` when an invoice payment fails.
An admin API behind a bearer token lists customers and provisions or
deprovisions by hand, and a status endpoint reports whether a tenant's
container is healthy.

The model covers the decision logic of `webhook/app.py`:

- `records.dfy` (module `Records`): the customer record, the table, the three
  finders (one front-to-back scan, `Find`, over a key column) and `WithStatus`,
  the table the payment-failed handler writes back.
- `store.dfy` (module `Store`): the table file as a class whose `rows` the
  `Read`/`Write` methods load and replace, and `MarkPaymentFailed`, the
  in-place loop over the loaded array.
- `bridge.dfy` (module `Bridge`): the command lines of the two scripts, built
  step by step as in the source, an argument-convention decoder `Decode`
  that they round-trip through, and `Complete`, the `(success, output)` pair
  reported for a finished run.
- `webhook.dfy` (module `Webhook`): `Dispatch`, the decision taken for a
  signature-verification outcome and event, `Answer`, `Apply`, and
  `HandleWebhook`, the imperative handler proved against them.
- `admin.dfy` (module `Admin`): the gate of `_require_admin`, the three admin
  handlers and the gate composed with them.
- `status.dfy` (module `Status`): the container name, the `docker inspect`
  command and the readiness answer.
- `text.dfy`, `http.dfy`, `wrappers.dfy`: `strip`/`lower`/`replace`, the JSON
  field and response shapes, and `Option`.

External effects are inputs or returned values. Signature verification is a
`Verification` value (verified event or failure). A script run or
`docker inspect` is a `RunResult` (return code, stdout, stderr). The handlers
return the script `Call` they make instead of making it.

Behaviour of the code a reader might not expect:

- a `checkout.session.completed` event runs the provisioning script on every
  delivery, with the e-mail as given (neither stripped nor lowered) and
  without looking for an existing record (`CheckoutProvisionsKnownEmail`,
  `RedeliveryRepeatsDecision`);
- `customer.subscription.deleted` runs the deprovisioning script but never
  marks the record deprovisioned, so a payment failure followed by a deletion
  leaves the record at `payment_failed` (`PaymentFailedThenDeletedKeepsStatus`);
- `admin_deprovision` does not look the subdomain up in the table; any
  non-empty normalised subdomain reaches the script;
- the table lock covers only the write, not the read-modify-write.

A key of a request or event body that the source reads with `.get` is a
`Field`: `Missing`, `Null` or `Text`. The optional keys of a table record
(`email`, `stripe_customer_id`, `stripe_subscription_id`, `status`) are
`Option<string>` instead, with `None` for an absent key or a JSON `null`. Where the source passes such a value only to a truth test
(`if stripe_customer_id:`), `Null` and `Missing` become `""`, which the
command builder treats the same way. A JSON `null` where the source calls a
method on the value (`customer_details` before `.get("email")`, or the admin
`email`/`subdomain` before `.strip()`) raises an exception, which the model
answers with the framework's 500 page (`Http.Crashed`).

## Model

| member | source | states |
|---|---|---|
| `Records.Find` | webhook/app.py:42-63 | the result is the record at the first position whose key equals the argument, or nothing exactly when no record matches; an absent or null optional field never matches |
| `Records.FindCustomerByEmail` | webhook/app.py:42-47 | first record in table order whose `email` is present and equal to the argument, nothing when there is none |
| `Records.FindCustomer` | webhook/app.py:50-55 | first record whose `subdomain` equals the argument, nothing when there is none |
| `Records.FindCustomerBySubscription` | webhook/app.py:58-63 | first record whose `stripe_subscription_id` is present and equal to the argument, nothing when there is none |
| `Records.FindUnique` | webhook/app.py:42-63 | when exactly one record holds the key, the finder returns that record |
| `Records.SetStatus` | webhook/app.py:214-215 | a record with the subdomain gets status `payment_failed`; any other record keeps its status; subdomain, e-mail and both Stripe ids are kept either way |
| `Records.WithStatus` | webhook/app.py:212-216 | the patched table has the same length as the loaded one |
| `Records.WithStatusAt` | webhook/app.py:213-215 | a record with the customer's subdomain gets status `payment_failed` and keeps every other field; every other record is unchanged |
| `Records.WithStatusIdempotent` | webhook/app.py:212-216 | applying the patch twice gives the table applying it once gives |
| `Records.WithStatusKeepsKeys` | webhook/app.py:215 | the patch changes no finder's key field (e-mail, subdomain, subscription id) |
| `Records.FindAfterWithStatus` | webhook/app.py:210-216 | after the patch every finder returns the patched version of the record it returned before |
| `Store.CustomerDb.Read` | webhook/app.py:23-28 | a freshly allocated list holding the file's records in order |
| `Store.CustomerDb.Write` | webhook/app.py:31-39 | the file holds exactly the list afterwards and counts one more write |
| `Store.MarkPaymentFailed` | webhook/app.py:212-215 | the loop leaves the array equal to `WithStatus` of its old contents and changes nothing else |
| `Bridge.ProvisionCommand` | webhook/app.py:68-72 | the command starts with the script, `--email` and the e-mail; each Stripe id is appended with its flag only when non-empty, the customer id first; the command decodes back to the same three values |
| `Bridge.DecodeProvisionOptions` | webhook/app.py:68-72 | the option list of a provisioning command decodes to the e-mail and the two ids it was built from, absent ids reading as empty |
| `Bridge.DeprovisionCommand` | webhook/app.py:85 | the command is the script followed by the subdomain alone, and decodes to a deprovision of that subdomain |
| `Bridge.Command` | webhook/app.py:66-91 | the command run for any script call decodes back to that call |
| `Bridge.Complete` | webhook/app.py:76-91 | a non-zero return code is a failure carrying stderr unchanged; return code zero is a success carrying `Strip` of stdout, which has no surrounding whitespace |
| `Http.TextOrEmpty` | webhook/app.py:193-194 | the value passed on is the field's text when it is a string and `""` when it is absent or null, so it is non-empty exactly when the field is a non-empty string |
| `Webhook.CheckoutEmail` | webhook/app.py:192 | a present `customer_details` object yields its `email` field and an absent one yields the missing-key default `""`, so a non-empty e-mail can only come from a present object |
| `Webhook.Dispatch` | webhook/app.py:181-219 | a failed verification is rejected and nothing else is; a checkout provisions exactly when its e-mail is a non-empty string, with the session's customer and subscription ids; a deletion deprovisions the subdomain of the first customer holding the subscription exactly when there is one; a payment failure patches that customer's subdomain exactly when the invoice's subscription id is non-empty and held; other event types do nothing; a null `customer_details` raises |
| `Webhook.Answer` | webhook/app.py:181-221 | a rejected event is answered 400 `{"error": "invalid signature"}`; every accepted event is answered 200 `{"received": true}` whatever its effect |
| `Webhook.Apply` | webhook/app.py:206-216 | only a payment-failed patch changes the table; the length is kept |
| `Webhook.HandleWebhook` | webhook/app.py:177-221 | the handler answers, names the script it runs and leaves the table file as `Dispatch` and `Apply` say, and rewrites the file once on a patch and never otherwise |
| `Webhook.RedeliveryRepeatsDecision` | webhook/app.py:190-216 | a duplicate delivery against the table the first delivery left takes the same decision and leaves the same table |
| `Webhook.CheckoutProvisionsKnownEmail` | webhook/app.py:196-197 | a checkout whose e-mail already has a record still runs the provisioning script |
| `Webhook.PaymentFailedThenDeletedKeepsStatus` | webhook/app.py:199-216 | a payment failure then a deletion of the same subscription runs the deprovisioning script and leaves the record at `payment_failed` |
| `Admin.CheckAdmin` | webhook/app.py:100-105 | no configured key gives the misconfiguration outcome whatever the header; otherwise the request passes exactly when the header is `Bearer ` followed by the key, and is unauthorized otherwise |
| `Admin.Refusal` | webhook/app.py:100-104 | misconfiguration is 500 "admin API key not configured", a bad header is 401 "unauthorized" |
| `Admin.Guarded` | webhook/app.py:98-105 | the handler's reply is used only when the gate passes; otherwise no script runs and the answer is the gate's own refusal: 500 for a missing key, 401 for a wrong header |
| `Admin.NormalisedField` | webhook/app.py:236-237 | the request fails first exactly when the body is not a JSON object or the key is null; otherwise the value is the stripped, lowered string, empty when the key is absent |
| `Admin.Report` | webhook/app.py:243-245 | a failed script is 500 with its output as the error; a successful one is 200 with its output as the message |
| `Admin.ProvisionHandler` | webhook/app.py:236-245 | a body failure passes through and an empty normalised e-mail is 400 "email required", both without a script run; the script runs exactly when the normalised e-mail is non-empty and no record holds it, as a provision with that e-mail alone, answered by its outcome |
| `Admin.AdminProvision` | webhook/app.py:233-245 | behind a passing gate, a body failure is answered as `NormalisedField` says and an empty normalised e-mail is 400 "email required", both without a script run; the provisioning script runs exactly when the gate passes, the normalised e-mail is non-empty and no record holds it; it receives that e-mail and its outcome is reported; a 200 answer means it ran and succeeded |
| `Admin.AdminProvisionRejectsKnownEmail` | webhook/app.py:240-241 | an e-mail that normalises to one in the table is answered 400 "customer with this email already exists" and no script runs |
| `Admin.DeprovisionHandler` | webhook/app.py:251-258 | a body failure passes through and an empty normalised subdomain is 400 "subdomain required", both without a script run; otherwise the script runs with the normalised subdomain and is answered by its outcome |
| `Admin.AdminDeprovision` | webhook/app.py:248-258 | behind a passing gate, a body failure is answered as `NormalisedField` says and an absent, empty or whitespace-only subdomain is 400 "subdomain required", both without a script run; the deprovisioning script runs exactly when the gate passes and the normalised subdomain is non-empty, whatever the table holds, and its outcome is reported as 500 `{error}` or 200 `{message}` |
| `Admin.AdminCustomers` | webhook/app.py:227-230 | behind a passing gate the answer is the whole table; otherwise the gate's refusal (500 for a missing key, 401 for a wrong header) and no table |
| `Status.ContainerName` | webhook/app.py:160 | the name is `clawbot-` followed by the subdomain with every `.` turned into `-`, and contains no `.` |
| `Status.InspectCommand` | webhook/app.py:161-165 | the health query asks `docker inspect` for the health status of that container |
| `Status.StatusEndpoint` | webhook/app.py:158-170 | the endpoint runs the health query for that subdomain's container and answers 200 with `not_found` on a failed query, otherwise with the trimmed output as status and ready exactly when it is `healthy` |
| `Status.Probe` | webhook/app.py:166-170 | always 200; a failed query is not ready with status `not_found`; otherwise the status is the trimmed output and ready holds exactly when it is `healthy` |
| `Status.ContainerNameInjective` | webhook/app.py:160 | subdomains without `.` get distinct container names |
| `Status.DotAndDashShareContainer` | webhook/app.py:160 | `a.b` and `a-b` map to the same container |
| `Text.Strip` | webhook/app.py:169 | the result has no whitespace at either end, is the infix left after removing whitespace from both ends, and is empty exactly when the input is all whitespace |
| `Text.StripIdempotent` | webhook/app.py:169 | stripping twice gives what stripping once gives |
| `Text.Normalise` | webhook/app.py:237 | the normalised value is the stripped input with each character lowered, so it has no surrounding whitespace and no upper-case ASCII letter, and is empty exactly when the input is all whitespace |
| `Text.Lower` | webhook/app.py:237 | the lowered string has the input's length, each ASCII capital lowered and every other character kept |
| `Text.NormaliseIdempotent` | webhook/app.py:237 | normalising a normalised e-mail or subdomain changes nothing |
| `Text.Replace` | webhook/app.py:160 | every occurrence of the character is replaced and every other character kept |

## Left out

- HTTP routing and the pages: `index`, `create_checkout_session` and `success` (webhook/app.py:113-152) are templating and redirects.
- Stripe library calls: `construct_event` is the `Verification` input; `Session.create` and `Session.retrieve` are not modelled.
- `subprocess.run` for the scripts and for `docker inspect`: each run is a `RunResult` input; the scripts themselves (which create and update records) are not part of this model.
- Logging calls.
- File I/O: the JSON encoding of the table, a file that does not parse (which would raise), `mkdir`, and the `fcntl` lock around the write; the table is the `rows` of `CustomerDb`. Concurrency, and the lost update the lock admits because it covers only the write, are not modelled.
- Configuration read from the environment at import: the admin key is a parameter, the script paths are constants.
- `Text.Lower`: lowers ASCII letters only, where Python's `str.lower()` covers all of Unicode.
- A subscription event's `id` is modelled as a string; an event whose object lacks `id` would raise, and that case is not modelled.
- JSON values other than strings and `null` (numbers, lists) in the read keys are not modelled.
