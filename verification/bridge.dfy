/**
 * The provisioning bridge: the command lines of the provisioning and
 * deprovisioning scripts, and how a finished script run is reported.
 */
module Bridge {
  import opened Wrappers
  import opened Text

  /** What `subprocess.run(..., capture_output=True, text=True)` hands back. */
  datatype RunResult = RunResult(returncode: int, stdout: string, stderr: string)

  /** A script invocation the service decides on. An empty id stands for one that is not passed. */
  datatype Call =
    | ProvisionCall(email: string, customerId: string, subscriptionId: string)
    | DeprovisionCall(subdomain: string)

  /** The `(success, output)` pair `_provision` and `_deprovision` return. */
  datatype Outcome = Succeeded(output: string) | Failed(output: string)

  const PROVISION_SCRIPT := "/app/scripts/provision_customer.sh"
  const DEPROVISION_SCRIPT := "/app/scripts/deprovision_customer.sh"

  /** The options the provisioning script has been given so far. */
  datatype Options = Options(email: Option<string>, customerId: string, subscriptionId: string)

  /** Reads `--flag value` pairs; an odd argument count or an unknown flag is rejected. */
  function DecodeOptions(args: seq<string>, acc: Options): Option<Options>
    decreases |args|
  {
    if args == [] then Some(acc)
    else if |args| == 1 then None
    else if args[0] == "--email" then DecodeOptions(args[2..], acc.(email := Some(args[1])))
    else if args[0] == "--stripe-customer-id" then DecodeOptions(args[2..], acc.(customerId := args[1]))
    else if args[0] == "--stripe-subscription-id" then DecodeOptions(args[2..], acc.(subscriptionId := args[1]))
    else None
  }

  /**
   * The call a command line stands for under the scripts' argument
   * convention: the deprovisioning script takes the subdomain as its only
   * argument; the provisioning script takes `--email` and, optionally, the
   * two Stripe ids, each absent id defaulting to empty.
   */
  function Decode(cmd: seq<string>): Option<Call> {
    if |cmd| == 2 && cmd[0] == DEPROVISION_SCRIPT then Some(DeprovisionCall(cmd[1]))
    else if |cmd| >= 1 && cmd[0] == PROVISION_SCRIPT then
      match DecodeOptions(cmd[1..], Options(None, "", ""))
      case Some(Options(Some(email), customerId, subscriptionId)) => Some(ProvisionCall(email, customerId, subscriptionId))
      case _ => None
    else None
  }

  /**
   * The command `_provision` runs: it always starts with the script and
   * `--email`; each Stripe id is appended with its flag only when it is
   * non-empty, the customer id first. The command decodes back to the call.
   */
  method ProvisionCommand(email: string, customerId: string, subscriptionId: string) returns (cmd: seq<string>)
    ensures |cmd| == 3 + (if customerId != "" then 2 else 0) + (if subscriptionId != "" then 2 else 0)
    ensures cmd[..3] == [PROVISION_SCRIPT, "--email", email]
    ensures customerId != "" ==> cmd[3..5] == ["--stripe-customer-id", customerId]
    ensures subscriptionId != "" ==> cmd[|cmd| - 2..] == ["--stripe-subscription-id", subscriptionId]
    ensures Decode(cmd) == Some(ProvisionCall(email, customerId, subscriptionId))
  {
    cmd := [PROVISION_SCRIPT, "--email", email];
    if customerId != "" {
      cmd := cmd + ["--stripe-customer-id", customerId];
    }
    if subscriptionId != "" {
      cmd := cmd + ["--stripe-subscription-id", subscriptionId];
    }
    DecodeProvisionOptions(email, customerId, subscriptionId, cmd[1..]);
  }

  /** The options of a provisioning command decode to the values they were built from. */
  lemma DecodeProvisionOptions(email: string, customerId: string, subscriptionId: string, args: seq<string>)
    requires args == ["--email", email]
                     + (if customerId != "" then ["--stripe-customer-id", customerId] else [])
                     + (if subscriptionId != "" then ["--stripe-subscription-id", subscriptionId] else [])
    ensures DecodeOptions(args, Options(None, "", "")) == Some(Options(Some(email), customerId, subscriptionId))
  {
    var tail := args[2..];
    var afterEmail := Options(Some(email), "", "");
    assert DecodeOptions(args, Options(None, "", "")) == DecodeOptions(tail, afterEmail);
    if customerId != "" {
      var afterCustomer := afterEmail.(customerId := customerId);
      assert DecodeOptions(tail, afterEmail) == DecodeOptions(tail[2..], afterCustomer);
      if subscriptionId != "" {
        var rest := tail[2..];
        assert rest == ["--stripe-subscription-id", subscriptionId];
        assert DecodeOptions(rest, afterCustomer) == DecodeOptions(rest[2..], afterCustomer.(subscriptionId := subscriptionId));
        assert rest[2..] == [];
      }
    } else if subscriptionId != "" {
      assert tail == ["--stripe-subscription-id", subscriptionId];
      assert DecodeOptions(tail, afterEmail) == DecodeOptions(tail[2..], afterEmail.(subscriptionId := subscriptionId));
      assert tail[2..] == [];
    }
  }

  /** The command `_deprovision` runs: the script with the subdomain as its only argument. */
  function DeprovisionCommand(subdomain: string): (cmd: seq<string>)
    ensures Decode(cmd) == Some(DeprovisionCall(subdomain))
    ensures |cmd| == 2 && cmd[1] == subdomain
  {
    [DEPROVISION_SCRIPT, subdomain]
  }

  /** The command line the bridge runs for a call: that of `_provision` or of `_deprovision`. */
  method Command(call: Call) returns (cmd: seq<string>)
    ensures Decode(cmd) == Some(call)
    ensures call.ProvisionCall? ==> cmd[0] == PROVISION_SCRIPT
    ensures call.DeprovisionCall? ==> cmd == [DEPROVISION_SCRIPT, call.subdomain]
  {
    match call
    case ProvisionCall(email, customerId, subscriptionId) =>
      cmd := ProvisionCommand(email, customerId, subscriptionId);
    case DeprovisionCall(subdomain) =>
      cmd := DeprovisionCommand(subdomain);
  }

  /**
   * How a finished script run is reported: a non-zero exit status is a
   * failure carrying stderr as it is; exit status zero is a success carrying
   * stdout without surrounding whitespace.
   */
  function Complete(run: RunResult): (o: Outcome)
    ensures o.Failed? <==> run.returncode != 0
    ensures o.Failed? ==> o.output == run.stderr
    ensures o.Succeeded? ==> o.output == Strip(run.stdout)
    ensures o.Succeeded? ==> Stripped(o.output) && (o.output == [] <==> forall i :: 0 <= i < |run.stdout| ==> IsSpace(run.stdout[i]))
  {
    if run.returncode != 0 then Failed(run.stderr) else Succeeded(Strip(run.stdout))
  }
}
