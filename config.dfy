/** The static tenant configuration table and its lookup
    (`utils/config.py`). */
module Config {
  import opened Wrappers

  /** A value stored in a configuration entry: a string, or a nested
      string-to-string dictionary such as a header set. */
  datatype ConfigValue = Text(s: string) | Mapping(m: map<string, string>)

  type ConfigEntry = map<string, ConfigValue>
  type ConfigTable = map<string, ConfigEntry>

  /** `TENANT_CONFIGS`: one tenant, with no "headers" key. */
  const TenantConfigs: ConfigTable := map[
    "slumberland" := map[
      "tenant" := Text("slumberland"),
      "origin" := Text("<APP_ORIGIN>"),
      "referer" := Text("<APP_REFERER>")
    ]
  ]

  /** The default argument of `get_tenant_config`. */
  const DefaultTenantName := "slumberland"

  /** `table[key]`: the stored entry, or KeyError naming the key. */
  function Lookup(table: ConfigTable, key: string): (r: Result<ConfigEntry>)
    ensures r.Ok? <==> key in table
    ensures r.Ok? ==> r.value == table[key]
    ensures r.Raised? ==> r.exc == KeyError(key)
  {
    if key in table then Ok(table[key]) else Raised(KeyError(key))
  }

  /** `get_tenant_config(tenant_name)`: succeeds exactly for the one tenant
      in the table, and the entry it returns names that tenant. */
  function GetTenantConfig(tenantName: string): (r: Result<ConfigEntry>)
    ensures r.Ok? <==> tenantName == "slumberland"
    ensures r.Ok? ==> "tenant" in r.value && r.value["tenant"] == Text(tenantName)
    ensures r.Raised? ==> r.exc == KeyError(tenantName)
  {
    Lookup(TenantConfigs, tenantName)
  }

  /** Every entry of the table names its own key under "tenant". */
  lemma EntriesNameTheirTenant()
    ensures forall k :: k in TenantConfigs ==>
      "tenant" in TenantConfigs[k] && TenantConfigs[k]["tenant"] == Text(k)
  {
    assert TenantConfigs.Keys == {"slumberland"};
  }

  /** The other tenants the system talks about are not in the table. */
  lemma OtherTenantsAreUnknown()
    ensures GetTenantConfig("neverwinter") == Raised(KeyError("neverwinter"))
    ensures GetTenantConfig("wonderland") == Raised(KeyError("wonderland"))
  {
  }

  /** No entry of the table carries a "headers" key. */
  lemma NoEntryHasHeaders()
    ensures forall k :: k in TenantConfigs ==> "headers" !in TenantConfigs[k]
  {
    assert TenantConfigs.Keys == {"slumberland"};
  }
}
