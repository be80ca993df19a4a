/**
 * The status probe: the container a subdomain runs in, the `docker inspect`
 * command that asks for its health, and the readiness answer.
 */
module Status {
  import opened Text
  import opened Bridge
  import opened Http

  const CONTAINER_PREFIX := "clawbot-"

  /** The container of a tenant: the prefix, then the subdomain with every '.' turned into '-'. */
  function ContainerName(subdomain: string): (name: string)
    ensures |name| == |CONTAINER_PREFIX| + |subdomain| && name[..|CONTAINER_PREFIX|] == CONTAINER_PREFIX
    ensures forall i :: 0 <= i < |subdomain| ==>
              name[|CONTAINER_PREFIX| + i] == if subdomain[i] == '.' then '-' else subdomain[i]
    ensures '.' !in name
  {
    CONTAINER_PREFIX + Replace(subdomain, '.', '-')
  }

  /** The health query run for a subdomain. */
  function InspectCommand(subdomain: string): (cmd: seq<string>)
    ensures |cmd| == 5 && cmd[..4] == ["docker", "inspect", "--format", "{{.State.Health.Status}}"]
    ensures cmd[4] == ContainerName(subdomain)
  {
    ["docker", "inspect", "--format", "{{.State.Health.Status}}", ContainerName(subdomain)]
  }

  /**
   * `GET /api/status/<subdomain>`, given what the health query returned:
   * always 200; a failed query reads as not ready with status `not_found`;
   * otherwise the status is the query's trimmed output and the tenant is
   * ready exactly when that output is `healthy`.
   */
  function Probe(inspect: RunResult): (r: Response)
    ensures r.code == 200 && r.body.Readiness?
    ensures inspect.returncode != 0 ==> r.body == Readiness(false, "not_found")
    ensures inspect.returncode == 0 ==> r.body.status == Strip(inspect.stdout)
    ensures r.body.ready <==> inspect.returncode == 0 && Strip(inspect.stdout) == "healthy"
  {
    if inspect.returncode != 0 then Response(200, Readiness(false, "not_found"))
    else
      var health := Strip(inspect.stdout);
      Response(200, Readiness(health == "healthy", health))
  }

  /**
   * `status()` as a whole: the health query it runs for the subdomain and the
   * answer it gives for that query's result.
   */
  function StatusEndpoint(subdomain: string, inspect: RunResult): (r: (seq<string>, Response))
    ensures r.0 == InspectCommand(subdomain) && r.0[4] == ContainerName(subdomain)
    ensures r.1.code == 200 && r.1.body.Readiness?
    ensures inspect.returncode != 0 ==> r.1.body == Readiness(false, "not_found")
    ensures inspect.returncode == 0 ==> r.1.body.status == Strip(inspect.stdout)
    ensures r.1.body.ready <==> inspect.returncode == 0 && Strip(inspect.stdout) == "healthy"
  {
    (InspectCommand(subdomain), Probe(inspect))
  }

  /** Subdomains without a '.' get distinct containers. */
  lemma ContainerNameInjective(a: string, b: string)
    requires '.' !in a && '.' !in b
    requires ContainerName(a) == ContainerName(b)
    ensures a == b
  {
  }

  /** Subdomains that differ only in '.' against '-' share one container. */
  lemma DotAndDashShareContainer()
    ensures ContainerName("a.b") == ContainerName("a-b")
  {
  }
}
