/** The Application Gateway catalogue: `ApplicationGatewayScanner.GetRules`, rules agw-001 to
    agw-005, agw-007, agw-008 and agw-103 to agw-106. */
module Agw {
  import opened Strings
  import opened Core

  datatype AutoscaleConfiguration = AutoscaleConfiguration(minCapacity: Option<Int32>)

  /** A frontend port; the element's `Properties` record, dereferenced unchecked, is folded in. */
  datatype FrontendPort = FrontendPort(port: Option<Int32>)

  datatype SslCertificate = SslCertificate(name: Option<string>)

  datatype WafConfiguration = WafConfiguration(enabled: Option<bool>)

  datatype GatewaySku = GatewaySku(name: Option<string>)

  /** `ConnectionDraining.Enabled` is dereferenced without a nil check, so it is required. */
  datatype ConnectionDrainingSettings = ConnectionDrainingSettings(enabled: bool)

  /** A backend HTTP settings entry; its `Properties` record is folded in. */
  datatype BackendHttpSettings = BackendHttpSettings(connectionDraining: Option<ConnectionDrainingSettings>)

  /** The gateway's `Properties` record, which every rule dereferences unchecked. */
  datatype GatewayProperties = GatewayProperties(
    autoscaleConfiguration: Option<AutoscaleConfiguration>,
    frontendPorts: seq<FrontendPort>,
    sslCertificates: Option<seq<SslCertificate>>,
    webApplicationFirewallConfiguration: Option<WafConfiguration>,
    sku: Option<GatewaySku>,
    backendHttpSettingsCollection: Option<seq<BackendHttpSettings>>)

  /** `armnetwork.ApplicationGateway`, reduced to what the rules read. */
  datatype ApplicationGateway = ApplicationGateway(
    id: string,
    name: string,
    zones: Option<seq<string>>,
    tags: Tags,
    properties: GatewayProperties)

  const RuleIds: set<string> := {
    "agw-001", "agw-002", "agw-003", "agw-004", "agw-005", "agw-007", "agw-008",
    "agw-103", "agw-104", "agw-105", "agw-106"}

  const HttpsPort := 443

  // Documentation links, kept as opaque data.
  const AutoscalingZonesUrl := "https://learn.microsoft.com/en-us/azure/application-gateway/application-gateway-autoscaling-zone-redundant"
  const SecurityUrl := "https://learn.microsoft.com/en-us/azure/well-architected/services/networking/azure-application-gateway#security"
  const WafUrl := "https://learn.microsoft.com/en-us/azure/application-gateway/features#web-application-firewall"
  const V1RetirementUrl := "https://azure.microsoft.com/en-us/updates/application-gateway-v1-will-be-retired-on-28-april-2026-transition-to-application-gateway-v2/"
  const DiagnosticsUrl := "https://learn.microsoft.com/en-us/azure/application-gateway/application-gateway-diagnostics#diagnostic-logging"
  const DrainingUrl := "https://learn.microsoft.com/en-us/azure/application-gateway/features#connection-draining"
  const SlaUrl := "https://www.azure.cn/en-us/support/sla/application-gateway/"
  const PricingUrl := "https://learn.microsoft.com/en-us/azure/application-gateway/understanding-pricing"
  const NamingUrl := "https://learn.microsoft.com/en-us/azure/cloud-adoption-framework/ready/azure-best-practices/resource-abbreviations"
  const TagsUrl := "https://learn.microsoft.com/en-us/azure/azure-resource-manager/management/tag-resources?tabs=json"

  /** agw-104 dereferences the SKU name unchecked: it may be evaluated only on such gateways. */
  predicate HasSkuName(g: ApplicationGateway) {
    g.properties.sku.Some? && g.properties.sku.value.name.Some?
  }

  // ---------------------------------------------------------------------------------------------
  // Single-expression rules

  /** agw-001: autoscaling must be configured with a minimum of at least two instances. */
  function Autoscale(g: ApplicationGateway): (r: Outcome)
    ensures !r.violated <==> exists n :: g.properties.autoscaleConfiguration == Some(AutoscaleConfiguration(Some(n))) && n >= 2
    ensures r.detail == ""
  {
    var autoscale := g.properties.autoscaleConfiguration.Some?
      && g.properties.autoscaleConfiguration.value.minCapacity.Some?
      && g.properties.autoscaleConfiguration.value.minCapacity.value >= 2;
    Outcome(!autoscale, "")
  }

  /** agw-003: a web application firewall must be configured and enabled. */
  function Waf(g: ApplicationGateway): (r: Outcome)
    ensures !r.violated <==> g.properties.webApplicationFirewallConfiguration == Some(WafConfiguration(Some(true)))
    ensures r.detail == ""
  {
    var waf := g.properties.webApplicationFirewallConfiguration.Some?
      && g.properties.webApplicationFirewallConfiguration.value.enabled.Some?
      && g.properties.webApplicationFirewallConfiguration.value.enabled.value;
    Outcome(!waf, "")
  }

  /** agw-004: the SKU must be named and its name must contain "_v2". */
  function V2Sku(g: ApplicationGateway): (r: Outcome)
    ensures !r.violated <==> HasSkuName(g) && exists i :: OccursAt(g.properties.sku.value.name.value, "_v2", i)
    ensures r.detail == ""
  {
    var v2 := g.properties.sku.Some? && g.properties.sku.value.name.Some?
      && Contains(g.properties.sku.value.name.value, "_v2");
    Outcome(!v2, "")
  }

  /** agw-005: the gateway's lower-cased id must be a key of the diagnostics-settings table. */
  function DiagnosticSettings(g: ApplicationGateway, ctx: ScanContext): (r: Outcome)
    ensures r.violated <==> ToLower(g.id) !in ctx.diagnosticsSettings
    ensures r.detail == ""
  {
    Outcome(!HasDiagnosticSettings(ctx, g.id), "")
  }

  /** agw-007: the gateway must span more than one availability zone. */
  function AvailabilityZones(g: ApplicationGateway): (r: Outcome)
    ensures r.violated <==> g.zones.None? || |g.zones.value| <= 1
    ensures r.detail == ""
  {
    var zones := g.zones.Some? && |g.zones.value| > 1;
    Outcome(!zones, "")
  }

  /** agw-103: informational; it always reports the 99.95% SLA. */
  function Sla(g: ApplicationGateway, ctx: ScanContext): (r: Outcome)
    ensures !r.violated && r.detail == "99.95%"
  {
    Outcome(false, "99.95%")
  }

  /** agw-104: informational; it reports the SKU name. */
  function SkuInfo(g: ApplicationGateway): (r: Outcome)
    requires HasSkuName(g)
    ensures !r.violated && r.detail == g.properties.sku.value.name.value
  {
    Outcome(false, g.properties.sku.value.name.value)
  }

  /** agw-104 as the registry stores it: the closure shape, with agw-104's precondition. */
  function SkuInfoEval(g: ApplicationGateway, ctx: ScanContext): Outcome
    requires HasSkuName(g)
  {
    SkuInfo(g)
  }

  /** agw-105: the name must start with "agw". */
  function NamingConvention(g: ApplicationGateway): (r: Outcome)
    ensures r.violated <==> !exists rest :: g.name == "agw" + rest
    ensures r.detail == ""
  {
    HasPrefixIffSplit(g.name, "agw");
    Outcome(!HasPrefix(g.name, "agw"), "")
  }

  /** agw-106: the gateway must carry at least one tag. */
  function TagsRule(g: ApplicationGateway): (r: Outcome)
    ensures r.violated <==> g.tags == map[]
    ensures r.detail == ""
  {
    Outcome(|g.tags| == 0, "")
  }

  // ---------------------------------------------------------------------------------------------
  // agw-002: a listener on port 443 with certificates

  /** The search of agw-002's loop: some frontend port is 443; ports without a number are skipped. */
  function HasHttpsPort(ports: seq<FrontendPort>): (r: bool)
    ensures r <==> exists i :: 0 <= i < |ports| && ports[i].port == Some(HttpsPort)
  {
    if ports == [] then false
    else if ports[0].port.Some? && ports[0].port.value == HttpsPort then true
    else
      var r := HasHttpsPort(ports[1..]);
      assert r <==> exists i :: 0 <= i < |ports| && ports[i].port == Some(HttpsPort) by {
        assert forall i :: 1 <= i < |ports| ==> ports[i] == ports[1..][i - 1];
      }
      r
  }

  /** agw-002: passes only with a 443 frontend port and a present, non-empty certificate list. */
  function Ssl(g: ApplicationGateway): (r: Outcome)
    ensures !r.violated <==> (
      && (exists i :: 0 <= i < |g.properties.frontendPorts| && g.properties.frontendPorts[i].port == Some(HttpsPort))
      && g.properties.sslCertificates.Some? && g.properties.sslCertificates.value != [])
    ensures r.detail == ""
  {
    var sslEnabled := HasHttpsPort(g.properties.frontendPorts)
      && g.properties.sslCertificates.Some? && |g.properties.sslCertificates.value| > 0;
    Outcome(!sslEnabled, "")
  }

  /** The closure body of agw-002: a flag set by the first 443 port, leaving the loop at once. */
  method ScanFrontendPorts(g: ApplicationGateway) returns (r: Outcome)
    ensures r == Ssl(g)
  {
    var ports := g.properties.frontendPorts;
    var sslPort := false;
    var i := 0;
    while i < |ports|
      invariant 0 <= i <= |ports|
      invariant !sslPort
      invariant forall j :: 0 <= j < i ==> ports[j].port != Some(HttpsPort)
    {
      if ports[i].port.Some? && ports[i].port.value == HttpsPort {
        sslPort := true;
        break;
      }
      i := i + 1;
    }
    var sslEnabled := sslPort && g.properties.sslCertificates.Some? && |g.properties.sslCertificates.value| > 0;
    return Outcome(!sslEnabled, "");
  }

  // ---------------------------------------------------------------------------------------------
  // agw-008: connection draining on every backend

  predicate DrainingEnabled(setting: BackendHttpSettings) {
    setting.connectionDraining.Some? && setting.connectionDraining.value.enabled
  }

  /** The search of agw-008's loop: every backend HTTP setting drains connections. */
  function AllDraining(settings: seq<BackendHttpSettings>): (r: bool)
    ensures r <==> forall i :: 0 <= i < |settings| ==> DrainingEnabled(settings[i])
  {
    if settings == [] then true
    else if !DrainingEnabled(settings[0]) then false
    else
      var r := AllDraining(settings[1..]);
      assert r <==> forall i :: 0 <= i < |settings| ==> DrainingEnabled(settings[i]) by {
        assert forall i :: 1 <= i < |settings| ==> settings[i] == settings[1..][i - 1];
      }
      r
  }

  /** agw-008: an absent collection passes; otherwise every setting must drain connections. */
  function BackendDraining(g: ApplicationGateway): (r: Outcome)
    ensures r.violated <==> (
      && g.properties.backendHttpSettingsCollection.Some?
      && exists i :: 0 <= i < |g.properties.backendHttpSettingsCollection.value|
                     && !DrainingEnabled(g.properties.backendHttpSettingsCollection.value[i]))
    ensures r.detail == ""
  {
    if g.properties.backendHttpSettingsCollection.None? then Outcome(false, "")
    else Outcome(!AllDraining(g.properties.backendHttpSettingsCollection.value), "")
  }

  /** The closure body of agw-008: a flag cleared by the first setting without draining, leaving
      the loop at once. */
  method ScanBackendSettings(g: ApplicationGateway) returns (r: Outcome)
    ensures r == BackendDraining(g)
  {
    if g.properties.backendHttpSettingsCollection.None? {
      return Outcome(false, "");
    }
    var settings := g.properties.backendHttpSettingsCollection.value;
    var draining := true;
    var i := 0;
    while i < |settings|
      invariant 0 <= i <= |settings|
      invariant draining
      invariant forall j :: 0 <= j < i ==> DrainingEnabled(settings[j])
    {
      if settings[i].connectionDraining.None? || !settings[i].connectionDraining.value.enabled {
        draining := false;
        break;
      }
      i := i + 1;
    }
    return Outcome(!draining, "");
  }

  /** Splitting the collection splits the answer: all drain iff both halves drain. */
  lemma {:induction false} AllDrainingAppend(a: seq<BackendHttpSettings>, b: seq<BackendHttpSettings>)
    ensures AllDraining(a + b) <==> AllDraining(a) && AllDraining(b)
  {
    if a != [] {
      assert (a + b)[1..] == a[1..] + b;
      AllDrainingAppend(a[1..], b);
    } else {
      assert a + b == b;
    }
  }

  // ---------------------------------------------------------------------------------------------
  // The catalogue

  function GetRules(): (rules: map<string, AzureRule<ApplicationGateway>>)
    ensures rules.Keys == RuleIds
  {
    map[
      "agw-001" := AzureRule("agw-001", Scalability, "Application Gateway: Ensure autoscaling is used with a minimum of 2 instances", High,
        (g: ApplicationGateway, ctx: ScanContext) => Autoscale(g),
        AutoscalingZonesUrl),
      "agw-002" := AzureRule("agw-002", Security, "Application Gateway: Secure all incoming connections with SSL", High,
        (g: ApplicationGateway, ctx: ScanContext) => Ssl(g),
        SecurityUrl),
      "agw-003" := AzureRule("agw-003", Security, "Application Gateway: Enable WAF policies", High,
        (g: ApplicationGateway, ctx: ScanContext) => Waf(g),
        WafUrl),
      "agw-004" := AzureRule("agw-004", HighAvailability, "Application Gateway: Use Application GW V2 instead of V1", High,
        (g: ApplicationGateway, ctx: ScanContext) => V2Sku(g),
        V1RetirementUrl),
      "agw-005" := AzureRule("agw-005", MonitoringAndAlerting, "Application Gateway: Monitor and Log the configurations and traffic", Low,
        (g: ApplicationGateway, ctx: ScanContext) => DiagnosticSettings(g, ctx),
        DiagnosticsUrl),
      "agw-007" := AzureRule("agw-007", HighAvailability, "Application Gateway should have availability zones enabled", Medium,
        (g: ApplicationGateway, ctx: ScanContext) => AvailabilityZones(g),
        AutoscalingZonesUrl),
      "agw-008" := AzureRule("agw-008", HighAvailability, "Application Gateway: Plan for backend maintenance by using connection draining", Medium,
        (g: ApplicationGateway, ctx: ScanContext) => BackendDraining(g),
        DrainingUrl),
      "agw-103" := AzureRule("agw-103", HighAvailability, "Application Gateway SLA", High,
        (g: ApplicationGateway, ctx: ScanContext) => Sla(g, ctx),
        SlaUrl),
      "agw-104" := AzureRule("agw-104", HighAvailability, "Application Gateway SKU", High,
        SkuInfoEval,
        PricingUrl),
      "agw-105" := AzureRule("agw-105", Governance, "Application Gateway Name should comply with naming conventions", Low,
        (g: ApplicationGateway, ctx: ScanContext) => NamingConvention(g),
        NamingUrl),
      "agw-106" := AzureRule("agw-106", Governance, "Application Gateway should have tags", Low,
        (g: ApplicationGateway, ctx: ScanContext) => TagsRule(g),
        TagsUrl)
    ]
  }

  /** Every entry is stored under its own id; every rule but agw-104 can be evaluated on any
      gateway, and agw-104 exactly on gateways with a SKU name. */
  lemma RulesWellFormed()
    ensures var rules := GetRules();
      forall id :: id in rules ==>
        && rules[id].id == id
        && forall g, ctx :: rules[id].eval.requires(g, ctx) <==> (id == "agw-104" ==> HasSkuName(g))
  {
    var rules := GetRules();
    forall id | id in rules
      ensures rules[id].id == id
      ensures forall g, ctx :: rules[id].eval.requires(g, ctx) <==> (id == "agw-104" ==> HasSkuName(g))
    {
      if id == "agw-001" {
      } else if id == "agw-002" {
      } else if id == "agw-003" {
      } else if id == "agw-004" {
      } else if id == "agw-005" {
      } else if id == "agw-007" {
      } else if id == "agw-008" {
      } else if id == "agw-103" {
      } else if id == "agw-104" {
      } else if id == "agw-105" {
      } else {
        assert id == "agw-106";
      }
    }
  }

  /** Each registry entry evaluates to the rule of the same id above; agw-104 on the gateways it
      is defined on. */
  lemma RulesDispatch(g: ApplicationGateway, ctx: ScanContext)
    ensures var rules := GetRules();
      && rules["agw-001"].eval(g, ctx) == Autoscale(g)
      && rules["agw-002"].eval(g, ctx) == Ssl(g)
      && rules["agw-003"].eval(g, ctx) == Waf(g)
      && rules["agw-004"].eval(g, ctx) == V2Sku(g)
      && rules["agw-005"].eval(g, ctx) == DiagnosticSettings(g, ctx)
      && rules["agw-007"].eval(g, ctx) == AvailabilityZones(g)
      && rules["agw-008"].eval(g, ctx) == BackendDraining(g)
      && rules["agw-103"].eval(g, ctx) == Sla(g, ctx)
      && (HasSkuName(g) ==> rules["agw-104"].eval(g, ctx) == SkuInfo(g))
      && rules["agw-105"].eval(g, ctx) == NamingConvention(g)
      && rules["agw-106"].eval(g, ctx) == TagsRule(g)
  {
  }

  /** Applying the whole catalogue: the informational rules agw-103 and agw-104 never report a
      violation but always carry their detail. */
  lemma InformationalFindings(g: ApplicationGateway, ctx: ScanContext)
    requires HasSkuName(g)
    ensures var rules := GetRules();
      && (forall id :: id in rules ==> rules[id].eval.requires(g, ctx))
      && var f := ApplyRules(rules, g, ctx);
      && f["agw-103"] == Finding("agw-103", HighAvailability, High, false, "99.95%")
      && f["agw-104"] == Finding("agw-104", HighAvailability, High, false, g.properties.sku.value.name.value)
  {
    RulesWellFormed();
    RulesDispatch(g, ctx);
  }

  /** Absent optional fields: every rule that needs one fails, except agw-008, which passes on an
      absent backend collection. */
  lemma FailSafeDefaults(g: ApplicationGateway)
    ensures g.properties.autoscaleConfiguration.None? ==> Autoscale(g).violated
    ensures g.properties.sslCertificates.None? ==> Ssl(g).violated
    ensures g.properties.webApplicationFirewallConfiguration.None? ==> Waf(g).violated
    ensures g.properties.sku.None? ==> V2Sku(g).violated
    ensures g.zones.None? ==> AvailabilityZones(g).violated
    ensures g.properties.backendHttpSettingsCollection.None? ==> !BackendDraining(g).violated
  {
  }

  /** An absent list and an empty one are judged alike by agw-002, agw-007 and agw-008. */
  lemma AbsentMatchesEmpty(g: ApplicationGateway)
    ensures Ssl(g.(properties := g.properties.(sslCertificates := None)))
         == Ssl(g.(properties := g.properties.(sslCertificates := Some([]))))
    ensures AvailabilityZones(g.(zones := None)) == AvailabilityZones(g.(zones := Some([])))
    ensures BackendDraining(g.(properties := g.properties.(backendHttpSettingsCollection := None)))
         == BackendDraining(g.(properties := g.properties.(backendHttpSettingsCollection := Some([]))))
  {
  }

  /** A "Standard_v2" gateway passes agw-004; a gateway on two zones passes agw-007. */
  lemma V2ZonedExample(g: ApplicationGateway)
    requires g.properties.sku == Some(GatewaySku(Some("Standard_v2")))
    requires g.zones == Some(["1", "2"])
    ensures !V2Sku(g).violated
    ensures !AvailabilityZones(g).violated
  {
    assert OccursAt("Standard_v2", "_v2", 8);
  }

  /** The registry's agw-004 entry fails a gateway without a SKU, and its agw-008 entry passes a
      gateway without a backend collection. */
  lemma RegistryFailSafe(g: ApplicationGateway, ctx: ScanContext)
    ensures g.properties.sku.None? ==> GetRules()["agw-004"].eval(g, ctx).violated
    ensures g.properties.backendHttpSettingsCollection.None? ==> !GetRules()["agw-008"].eval(g, ctx).violated
  {
    RulesDispatch(g, ctx);
    FailSafeDefaults(g);
  }
}
