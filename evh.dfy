/** The Event Hub namespace catalogue: `EventHubScanner.GetRules`, rules evh-001 to evh-008. */
module Evh {
  import opened Strings
  import opened Core

  /** `armeventhub.SKU`; `Name` is dereferenced without a nil check. */
  datatype NamespaceSku = NamespaceSku(name: string)

  datatype PrivateEndpointConnection = PrivateEndpointConnection(id: Option<string>)

  /** The namespace's `Properties` record, which every rule dereferences unchecked.
      `ZoneRedundant` is dereferenced too; `DisableLocalAuth` is compared against `nil`. */
  datatype NamespaceProperties = NamespaceProperties(
    zoneRedundant: bool,
    privateEndpointConnections: seq<PrivateEndpointConnection>,
    disableLocalAuth: Option<bool>)

  /** `armeventhub.EHNamespace`, reduced to what the rules read. */
  datatype EhNamespace = EhNamespace(
    id: string,
    name: string,
    sku: NamespaceSku,
    tags: Tags,
    properties: NamespaceProperties)

  const RuleIds: set<string> := {
    "evh-001", "evh-002", "evh-003", "evh-004", "evh-005", "evh-006", "evh-007", "evh-008"}

  // Documentation links, kept as opaque data.
  const DiagnosticsUrl := "https://learn.microsoft.com/en-us/azure/event-hubs/monitor-event-hubs#collection-and-routing"
  const ZonesUrl := "https://learn.microsoft.com/en-us/azure/event-hubs/event-hubs-premium-overview#high-availability-with-availability-zones"
  const SlaUrl := "https://www.azure.cn/en-us/support/sla/event-hubs/"
  const NetworkSecurityUrl := "https://learn.microsoft.com/en-us/azure/event-hubs/network-security"
  const TiersUrl := "https://learn.microsoft.com/en-us/azure/event-hubs/compare-tiers"
  const NamingUrl := "https://learn.microsoft.com/en-us/azure/cloud-adoption-framework/ready/azure-best-practices/resource-abbreviations"
  const TagsUrl := "https://learn.microsoft.com/en-us/azure/azure-resource-manager/management/tag-resources?tabs=json"
  const LocalAuthUrl := "https://learn.microsoft.com/en-us/azure/event-hubs/authorize-access-event-hubs#shared-access-signatures"

  /** evh-001: the namespace's lower-cased id must be a key of the diagnostics-settings table. */
  function DiagnosticSettings(n: EhNamespace, ctx: ScanContext): (r: Outcome)
    ensures r.violated <==> ToLower(n.id) !in ctx.diagnosticsSettings
    ensures r.detail == ""
  {
    Outcome(!HasDiagnosticSettings(ctx, n.id), "")
  }

  /** evh-002: the namespace must be zone redundant. */
  function ZoneRedundancy(n: EhNamespace): (r: Outcome)
    ensures r.violated <==> !n.properties.zoneRedundant
    ensures r.detail == ""
  {
    var zones := n.properties.zoneRedundant;
    Outcome(!zones, "")
  }

  /** evh-003: informational; Basic and Standard namespaces have 99.95%, all others 99.99%. */
  function Sla(n: EhNamespace): (r: Outcome)
    ensures !r.violated
    ensures r.detail == "99.95%" <==> Contains(n.sku.name, "Basic") || Contains(n.sku.name, "Standard")
    ensures r.detail == "99.99%" <==> !Contains(n.sku.name, "Basic") && !Contains(n.sku.name, "Standard")
  {
    var sku := n.sku.name;
    var sla := if !Contains(sku, "Basic") && !Contains(sku, "Standard") then "99.99%" else "99.95%";
    Outcome(false, sla)
  }

  /** evh-004: the namespace must have at least one private-endpoint connection. */
  function PrivateEndpoints(n: EhNamespace): (r: Outcome)
    ensures r.violated <==> n.properties.privateEndpointConnections == []
    ensures r.detail == ""
  {
    Outcome(!(|n.properties.privateEndpointConnections| > 0), "")
  }

  /** evh-005: informational; it reports the SKU name. */
  function SkuInfo(n: EhNamespace): (r: Outcome)
    ensures !r.violated && r.detail == n.sku.name
  {
    Outcome(false, n.sku.name)
  }

  /** evh-006: the name must start with "evh". */
  function NamingConvention(n: EhNamespace): (r: Outcome)
    ensures r.violated <==> !exists rest :: n.name == "evh" + rest
    ensures r.detail == ""
  {
    HasPrefixIffSplit(n.name, "evh");
    Outcome(!HasPrefix(n.name, "evh"), "")
  }

  /** evh-007: the namespace must carry at least one tag. */
  function TagsRule(n: EhNamespace): (r: Outcome)
    ensures r.violated <==> n.tags == map[]
    ensures r.detail == ""
  {
    Outcome(|n.tags| == 0, "")
  }

  /** evh-008: local (shared access key) authentication must be explicitly disabled. */
  function LocalAuth(n: EhNamespace): (r: Outcome)
    ensures !r.violated <==> n.properties.disableLocalAuth == Some(true)
    ensures r.detail == ""
  {
    var localAuth := n.properties.disableLocalAuth.Some? && n.properties.disableLocalAuth.value;
    Outcome(!localAuth, "")
  }

  function GetRules(): (rules: map<string, AzureRule<EhNamespace>>)
    ensures rules.Keys == RuleIds
  {
    map[
      "evh-001" := AzureRule("evh-001", MonitoringAndAlerting, "Event Hub Namespace should have diagnostic settings enabled", Low,
        (n: EhNamespace, ctx: ScanContext) => DiagnosticSettings(n, ctx), DiagnosticsUrl),
      "evh-002" := AzureRule("evh-002", HighAvailability, "Event Hub Namespace should have availability zones enabled", High,
        (n: EhNamespace, ctx: ScanContext) => ZoneRedundancy(n), ZonesUrl),
      "evh-003" := AzureRule("evh-003", HighAvailability, "Event Hub Namespace should have a SLA", High,
        (n: EhNamespace, ctx: ScanContext) => Sla(n), SlaUrl),
      "evh-004" := AzureRule("evh-004", Security, "Event Hub Namespace should have private endpoints enabled", High,
        (n: EhNamespace, ctx: ScanContext) => PrivateEndpoints(n), NetworkSecurityUrl),
      "evh-005" := AzureRule("evh-005", HighAvailability, "Event Hub Namespace SKU", High,
        (n: EhNamespace, ctx: ScanContext) => SkuInfo(n), TiersUrl),
      "evh-006" := AzureRule("evh-006", Governance, "Event Hub Namespace Name should comply with naming conventions", Low,
        (n: EhNamespace, ctx: ScanContext) => NamingConvention(n), NamingUrl),
      "evh-007" := AzureRule("evh-007", Governance, "Event Hub should have tags", Low,
        (n: EhNamespace, ctx: ScanContext) => TagsRule(n), TagsUrl),
      "evh-008" := AzureRule("evh-008", Security, "Event Hub should have local authentication disabled", Medium,
        (n: EhNamespace, ctx: ScanContext) => LocalAuth(n), LocalAuthUrl)
    ]
  }

  /** Every entry is stored under its own id and can be evaluated on any namespace and context. */
  lemma RulesWellFormed()
    ensures var rules := GetRules();
      forall id :: id in rules ==>
        && rules[id].id == id
        && forall n, ctx :: rules[id].eval.requires(n, ctx)
  {
    var rules := GetRules();
    forall id | id in rules
      ensures rules[id].id == id && forall n, ctx :: rules[id].eval.requires(n, ctx)
    {
      if id == "evh-001" {
      } else if id == "evh-002" {
      } else if id == "evh-003" {
      } else if id == "evh-004" {
      } else if id == "evh-005" {
      } else if id == "evh-006" {
      } else if id == "evh-007" {
      } else {
        assert id == "evh-008";
      }
    }
  }

  /** Each registry entry evaluates to the rule of the same id above. */
  lemma RulesDispatch(n: EhNamespace, ctx: ScanContext)
    ensures var rules := GetRules();
      && rules["evh-001"].eval(n, ctx) == DiagnosticSettings(n, ctx)
      && rules["evh-002"].eval(n, ctx) == ZoneRedundancy(n)
      && rules["evh-003"].eval(n, ctx) == Sla(n)
      && rules["evh-004"].eval(n, ctx) == PrivateEndpoints(n)
      && rules["evh-005"].eval(n, ctx) == SkuInfo(n)
      && rules["evh-006"].eval(n, ctx) == NamingConvention(n)
      && rules["evh-007"].eval(n, ctx) == TagsRule(n)
      && rules["evh-008"].eval(n, ctx) == LocalAuth(n)
  {
  }

  /** The SLA by tier: Basic and Standard namespaces report 99.95%, Premium ones 99.99%. */
  lemma SlaByTier(n: EhNamespace)
    ensures n.sku.name == "Basic" || n.sku.name == "Standard" ==> Sla(n) == Outcome(false, "99.95%")
    ensures n.sku.name == "Premium" ==> Sla(n) == Outcome(false, "99.99%")
  {
    if n.sku.name == "Basic" {
      assert OccursAt(n.sku.name, "Basic", 0);
    } else if n.sku.name == "Standard" {
      assert OccursAt(n.sku.name, "Standard", 0);
    } else if n.sku.name == "Premium" {
      NotContainsWithoutFirstChar(n.sku.name, "Basic");
      NotContainsWithoutFirstChar(n.sku.name, "Standard");
    }
  }

  /** An absent local-authentication flag fails evh-008, as an explicit `false` does. */
  lemma LocalAuthFailSafe(n: EhNamespace)
    ensures n.properties.disableLocalAuth != Some(true) ==> LocalAuth(n).violated
    ensures LocalAuth(n.(properties := n.properties.(disableLocalAuth := None)))
         == LocalAuth(n.(properties := n.properties.(disableLocalAuth := Some(false))))
  {
  }
}
