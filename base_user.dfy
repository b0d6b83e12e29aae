/** The base simulated user (`core/base_user.py`): its default think time
    and the construction of a user, which fixes the tenant, looks up its
    configuration, merges the configured headers into the client's headers
    and clears the outlet list. */
module BaseUser {
  import opened Wrappers
  import opened Gateway
  import opened Config

  /** A think-time range `between(lo, hi)`, in seconds. */
  datatype WaitRange = Between(lo: nat, hi: nat)

  /** A task declared with `@task(weight)`. */
  datatype TaskDecl = TaskDecl(name: string, weight: nat)

  const Host := "https://<YOUR_API_GATEWAY_URL>"
  const DefaultWaitTime := Between(1, 5)

  /** The tenant every user is constructed with, whatever its class. */
  const ConstructedTenantId := "slumberland"

  /** `headers.update(value)`.  A dictionary overwrites the keys it holds and
      leaves the others alone; a string is iterated as a sequence of
      one-character elements, so only the empty string is accepted. */
  function Update(headers: Headers, value: ConfigValue): (r: Result<Headers>)
    ensures value.Mapping? ==> r.Ok? && r.value.Keys == headers.Keys + value.m.Keys
    ensures value.Mapping? ==> forall k :: k in value.m ==> r.value[k] == value.m[k]
    ensures value.Mapping? ==> forall k :: k in headers && k !in value.m ==> r.value[k] == headers[k]
    ensures value.Text? ==> (r.Ok? <==> value.s == "")
    ensures value.Text? && r.Ok? ==> r.value == headers
    ensures r.Raised? ==> r.exc == ValueError
  {
    match value
    case Mapping(m) => Ok(headers + m)
    case Text(s) => if s == "" then Ok(headers) else Raised(ValueError)
  }

  /** What a successful construction leaves behind. */
  datatype Constructed = Constructed(config: ConfigEntry, headers: Headers)

  /** The outcome of `MultiTenantUser.__init__` against a configuration
      table and the client's headers. */
  function Construct(table: ConfigTable, headers: Headers): (r: Result<Constructed>)
    ensures ConstructedTenantId !in table ==> r == Raised(KeyError(ConstructedTenantId))
    ensures ConstructedTenantId in table && "headers" !in table[ConstructedTenantId] ==>
      r == Raised(KeyError("headers"))
    ensures r.Ok? ==>
      && Lookup(table, ConstructedTenantId) == Ok(r.value.config)
      && "headers" in r.value.config
      && Update(headers, r.value.config["headers"]) == Ok(r.value.headers)
    ensures r.Raised? && ConstructedTenantId in table && "headers" in table[ConstructedTenantId] ==>
      Update(headers, table[ConstructedTenantId]["headers"]) == Raised(r.exc)
  {
    match Lookup(table, ConstructedTenantId)
    case Raised(e) => Raised(e)
    case Ok(config) =>
      if "headers" !in config then Raised(KeyError("headers"))
      else
        match Update(headers, config["headers"])
        case Raised(e) => Raised(e)
        case Ok(merged) => Ok(Constructed(config, merged))
  }

  /** With the shipped table, constructing any user raises
      KeyError('headers'), and the client's headers are never touched. */
  lemma ShippedTableRaisesKeyError(headers: Headers)
    ensures Construct(TenantConfigs, headers) == Raised(KeyError("headers"))
  {
    NoEntryHasHeaders();
  }

  class MultiTenantUser {
    const client: Client
    var tenantId: string
    var config: ConfigEntry
    var outletIds: Option<seq<string>>

    constructor Assemble(client: Client, tenantId: string, config: ConfigEntry)
      ensures this.client == client && this.tenantId == tenantId && this.config == config
      ensures outletIds == None
    {
      this.client := client;
      this.tenantId := tenantId;
      this.config := config;
      outletIds := None;
    }

    /** `MultiTenantUser.__init__` on a fresh user whose client is given:
        the tenant is always "slumberland", the configuration is the table's
        entry for it, and the configured headers are merged into the
        client's in place.  A raised exception leaves the headers as they
        were and produces no user. */
    static method New(client: Client, table: ConfigTable) returns (r: Result<MultiTenantUser>)
      modifies client`headers
      ensures var c := Construct(table, old(client.headers));
        && (r.Raised? <==> c.Raised?)
        && (r.Raised? ==> r.exc == c.exc && client.headers == old(client.headers))
        && (r.Ok? ==>
              && fresh(r.value)
              && r.value.client == client
              && r.value.tenantId == ConstructedTenantId
              && r.value.config == c.value.config
              && r.value.outletIds == None
              && client.headers == c.value.headers)
    {
      var tenantId := ConstructedTenantId;
      var lookup := Lookup(table, tenantId);
      if lookup.Raised? {
        return Raised(lookup.exc);
      }
      var config := lookup.value;
      if "headers" !in config {
        return Raised(KeyError("headers"));
      }
      var merged := Update(client.headers, config["headers"]);
      if merged.Raised? {
        return Raised(merged.exc);
      }
      client.headers := merged.value;
      var user := new MultiTenantUser.Assemble(client, tenantId, config);
      return Ok(user);
    }
  }
}
