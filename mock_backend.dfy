/** The decision the mock GraphQL backend (`mock_backend.py`) makes for
    one POST: from the tenant header and a random draw, either a fast
    failure or a success whose simulated latency range depends on the
    tenant alone. */
module MockBackend {
  import opened Wrappers

  /** A `random.uniform(lo, hi)` sleep, in seconds. */
  datatype LatencyRange = LatencyRange(lo: real, hi: real)

  datatype Body =
    | PlainText(text: string)                // a bare string response
    | StatusJson(status: string, tenant: string)  // {"data": {"status": ..., "tenant": ...}}

  /** The status, the body and the latency slept before answering (none on
      the fast-failure path). */
  datatype Response = Response(status: int, body: Body, latency: Option<LatencyRange>)

  const DefaultTenant := "unknown"
  const ErrorRate := 0.3
  const ErrorBody := "Gamma crash"

  /** `request.headers.get("X-Tenant-ID", "unknown")`. */
  function TenantOf(header: Option<string>): string {
    header.GetOr(DefaultTenant)
  }

  /** The latency range slept for a successful request of a tenant. */
  function LatencyFor(tenant: string): (rg: LatencyRange)
    ensures 0.0 < rg.lo < rg.hi
  {
    if tenant == "neverwinter" then LatencyRange(0.4, 1.2)
    else if tenant == "wonderland" then LatencyRange(0.2, 0.4)
    else LatencyRange(0.05, 0.1)
  }

  /** `graphql_handler` with the random draw `r` of `random.random()` made
      an input.  The response is a 500 "Gamma crash" exactly for a
      Neverwinter request whose draw falls below 0.3, and then no latency
      is applied; every other response is a 200 echoing the request's
      tenant, after a latency chosen by the tenant alone. */
  function Handle(header: Option<string>, r: real): (resp: Response)
    requires 0.0 <= r < 1.0
    ensures resp.status == 500 <==> TenantOf(header) == "neverwinter" && r < ErrorRate
    ensures resp.status == 500 ==> resp.body == PlainText(ErrorBody) && resp.latency == None
    ensures resp.status != 500 ==>
      && resp.status == 200
      && resp.body == StatusJson("ok", TenantOf(header))
      && resp.latency == Some(LatencyFor(TenantOf(header)))
  {
    var tenant := TenantOf(header);
    if tenant == "neverwinter" && r < ErrorRate then Response(500, PlainText(ErrorBody), None)
    else Response(200, StatusJson("ok", tenant), Some(LatencyFor(tenant)))
  }

  /** A request without the header is served as tenant "unknown": never an
      error, and the shortest latency range. */
  lemma MissingHeaderIsUnknownTenant(r: real)
    requires 0.0 <= r < 1.0
    ensures Handle(None, r) == Response(200, StatusJson("ok", "unknown"), Some(LatencyRange(0.05, 0.1)))
  {
  }

  /** The latency ranges of the three tenant classes. */
  lemma LatencyRanges(tenant: string)
    ensures tenant == "neverwinter" ==> LatencyFor(tenant) == LatencyRange(0.4, 1.2)
    ensures tenant == "wonderland" ==> LatencyFor(tenant) == LatencyRange(0.2, 0.4)
    ensures tenant != "neverwinter" && tenant != "wonderland" ==> LatencyFor(tenant) == LatencyRange(0.05, 0.1)
  {
  }

  /** The draw decides only whether a Neverwinter request fails: two
      successful responses to the same header are identical. */
  lemma DrawOnlyDecidesFailure(header: Option<string>, r1: real, r2: real)
    requires 0.0 <= r1 < 1.0 && 0.0 <= r2 < 1.0
    requires Handle(header, r1).status == 200 && Handle(header, r2).status == 200
    ensures Handle(header, r1) == Handle(header, r2)
  {
  }
}
