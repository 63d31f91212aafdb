/** The API Management catalogue: `APIManagementScanner.GetRules`, rules apim-001 to apim-012. */
module Apim {
  import opened Strings
  import opened Core

  /** `armapimanagement.ResourceSKUProperties`; `Name` is dereferenced without a nil check. */
  datatype ServiceSku = ServiceSku(name: string)

  /** `ApimResource.Identity`; its `Type` is a string-typed enumeration. */
  datatype ServiceIdentity = ServiceIdentity(identityType: Option<string>)

  /** `CertificateInformation`: `Expiry` is an instant in whole seconds. */
  datatype CertificateInformation = CertificateInformation(expiry: Option<int>)

  datatype HostnameConfiguration = HostnameConfiguration(hostName: string, certificate: Option<CertificateInformation>)

  datatype AdditionalLocation = AdditionalLocation(location: string)

  datatype PrivateEndpointConnection = PrivateEndpointConnection(id: Option<string>)

  /** The service's `Properties` record, which every rule dereferences unchecked. Only the two
      fields the code compares against `nil` are optional; `PlatformVersion` is dereferenced. */
  datatype ServiceProperties = ServiceProperties(
    additionalLocations: seq<AdditionalLocation>,
    privateEndpointConnections: seq<PrivateEndpointConnection>,
    customProperties: Option<map<string, Option<string>>>,
    hostnameConfigurations: Option<seq<HostnameConfiguration>>,
    platformVersion: string)

  /** `armapimanagement.ServiceResource`, reduced to what the rules read. */
  datatype ServiceResource = ServiceResource(
    id: string,
    name: string,
    sku: ServiceSku,
    zones: seq<string>,
    tags: Tags,
    identity: Option<ServiceIdentity>,
    properties: ServiceProperties)

  const IdentityTypeNone := "None"
  const PlatformVersionStv1 := "stv1"

  const RuleIds: set<string> := {
    "apim-001", "apim-002", "apim-003", "apim-004", "apim-005", "apim-006",
    "apim-007", "apim-008", "apim-009", "apim-010", "apim-011", "apim-012"}

  /** The protocol switches apim-009 requires to be present and not "true". */
  const ProtocolSettings: seq<string> := [
    "Microsoft.WindowsAzure.ApiManagement.Gateway.Security.Protocols.Tls10",
    "Microsoft.WindowsAzure.ApiManagement.Gateway.Security.Protocols.Tls11",
    "Microsoft.WindowsAzure.ApiManagement.Gateway.Security.Protocols.Ssl30",
    "Microsoft.WindowsAzure.ApiManagement.Gateway.Security.Backend.Protocols.Tls10",
    "Microsoft.WindowsAzure.ApiManagement.Gateway.Security.Backend.Protocols.Tls11",
    "Microsoft.WindowsAzure.ApiManagement.Gateway.Security.Backend.Protocols.Ssl30"]

  /** The cipher switches apim-010 requires to be present and not "true". */
  const CipherSettings: seq<string> := [
    "Microsoft.WindowsAzure.ApiManagement.Gateway.Security.Ciphers.TripleDes168",
    "Microsoft.WindowsAzure.ApiManagement.Gateway.Security.Ciphers.TLS_RSA_WITH_AES_128_CBC_SHA",
    "Microsoft.WindowsAzure.ApiManagement.Gateway.Security.Ciphers.TLS_RSA_WITH_AES_256_CBC_SHA",
    "Microsoft.WindowsAzure.ApiManagement.Gateway.Security.Ciphers.TLS_RSA_WITH_AES_128_CBC_SHA256",
    "Microsoft.WindowsAzure.ApiManagement.Gateway.Security.Ciphers.TLS_ECDHE_RSA_WITH_AES_256_CBC_SHA",
    "Microsoft.WindowsAzure.ApiManagement.Gateway.Security.Ciphers.TLS_RSA_WITH_AES_256_CBC_SHA256",
    "Microsoft.WindowsAzure.ApiManagement.Gateway.Security.Ciphers.TLS_ECDHE_RSA_WITH_AES_128_CBC_SHA",
    "Microsoft.WindowsAzure.ApiManagement.Gateway.Security.Ciphers.TLS_RSA_WITH_AES_128_GCM_SHA256"]

  /** apim-011 flags certificates that expire within this many days. */
  const ExpiryWindowDays := 30
  const SecondsPerDay := 86400

  // Documentation links, kept as opaque data.
  const DiagnosticsUrl := "https://learn.microsoft.com/en-us/azure/api-management/api-management-howto-use-azure-monitor#resource-logs"
  const ZonesUrl := "https://learn.microsoft.com/en-us/azure/reliability/migrate-api-mgt"
  const SlaUrl := "https://www.azure.cn/en-us/support/sla/api-management/"
  const PrivateEndpointUrl := "https://learn.microsoft.com/en-us/azure/api-management/private-endpoint"
  const FeaturesUrl := "https://learn.microsoft.com/en-us/azure/api-management/api-management-features"
  const NamingUrl := "https://learn.microsoft.com/en-us/azure/cloud-adoption-framework/ready/azure-best-practices/resource-abbreviations"
  const TagsUrl := "https://learn.microsoft.com/en-us/azure/azure-resource-manager/management/tag-resources?tabs=json"
  const IdentityUrl := "https://learn.microsoft.com/en-us/azure/api-management/api-management-howto-use-managed-service-identity"
  const ProtocolsCiphersUrl := "https://learn.microsoft.com/en-us/azure/api-management/api-management-howto-manage-protocols-ciphers"
  const CustomDomainUrl := "https://learn.microsoft.com/en-us/azure/api-management/configure-custom-domain?tabs=custom"
  const Stv2MigrationUrl := "https://learn.microsoft.com/en-us/azure/api-management/migrate-stv1-to-stv2?tabs=portal"

  // ---------------------------------------------------------------------------------------------
  // apim-001 .. apim-008, apim-012: single expressions

  /** apim-001: the service's lower-cased id must be a key of the diagnostics-settings table. */
  function DiagnosticSettings(s: ServiceResource, ctx: ScanContext): (r: Outcome)
    ensures r.violated <==> ToLower(s.id) !in ctx.diagnosticsSettings
    ensures r.detail == ""
  {
    Outcome(!HasDiagnosticSettings(ctx, s.id), "")
  }

  /** apim-002: the service must be deployed to at least one availability zone. */
  function AvailabilityZones(s: ServiceResource): (r: Outcome)
    ensures r.violated <==> s.zones == []
    ensures r.detail == ""
  {
    Outcome(!(|s.zones| > 0), "")
  }

  /** The premium-and-redundant case of apim-003: a Premium SKU with zones or extra regions. */
  predicate PremiumRedundant(s: ServiceResource) {
    Contains(s.sku.name, "Premium") && (|s.zones| > 0 || |s.properties.additionalLocations| > 0)
  }

  /** apim-003: reports the SLA in force; only a Developer SKU (without the Premium case) has none. */
  function Sla(s: ServiceResource): (r: Outcome)
    ensures r.detail in {"99.99%", "None", "99.95%"}
    ensures r.detail == "99.99%" <==> PremiumRedundant(s)
    ensures r.detail == "None" <==> !PremiumRedundant(s) && Contains(s.sku.name, "Developer")
    ensures r.violated <==> r.detail == "None"
  {
    var sku := s.sku.name;
    var sla :=
      if PremiumRedundant(s) then "99.99%"
      else if Contains(sku, "Developer") then "None"
      else "99.95%";
    Outcome(sla == "None", sla)
  }

  /** apim-004: the service must have at least one private-endpoint connection. */
  function PrivateEndpoints(s: ServiceResource): (r: Outcome)
    ensures r.violated <==> s.properties.privateEndpointConnections == []
    ensures r.detail == ""
  {
    Outcome(!(|s.properties.privateEndpointConnections| > 0), "")
  }

  /** apim-005: a Developer SKU is a violation; the SKU name is always reported. */
  function SkuTier(s: ServiceResource): (r: Outcome)
    ensures r.violated <==> exists i :: OccursAt(s.sku.name, "Developer", i)
    ensures r.detail == s.sku.name
  {
    var sku := s.sku.name;
    Outcome(Contains(sku, "Developer"), sku)
  }

  /** apim-006: the name must start with "apim". */
  function NamingConvention(s: ServiceResource): (r: Outcome)
    ensures r.violated <==> !exists rest :: s.name == "apim" + rest
    ensures r.detail == ""
  {
    HasPrefixIffSplit(s.name, "apim");
    Outcome(!HasPrefix(s.name, "apim"), "")
  }

  /** apim-007: the service must carry at least one tag. */
  function TagsRule(s: ServiceResource): (r: Outcome)
    ensures r.violated <==> s.tags == map[]
    ensures r.detail == ""
  {
    Outcome(|s.tags| == 0, "")
  }

  /** apim-008: the service must have a managed identity of some type other than "None". */
  function ManagedIdentity(s: ServiceResource): (r: Outcome)
    ensures !r.violated <==> exists t :: s.identity == Some(ServiceIdentity(Some(t))) && t != IdentityTypeNone
    ensures r.detail == ""
  {
    Outcome(s.identity.None? || s.identity.value.identityType.None? || s.identity.value.identityType.value == IdentityTypeNone, "")
  }

  /** apim-012: a service still on the stv1 compute platform is a violation. */
  function PlatformVersion(s: ServiceResource): (r: Outcome)
    ensures r.violated <==> s.properties.platformVersion == PlatformVersionStv1
    ensures r.detail == ""
  {
    Outcome(s.properties.platformVersion == PlatformVersionStv1, "")
  }

  // ---------------------------------------------------------------------------------------------
  // apim-009 and apim-010: the shared protocol and cipher check

  /** One listed switch is "broken" when it is missing (or nil) or lower-cases to "true". */
  predicate SettingBroken(custom: map<string, Option<string>>, key: string) {
    key !in custom || custom[key].None? || ToLower(custom[key].value) == "true"
  }

  /** The lower-case comparison accepts "true" in any ASCII case, and nothing else. */
  lemma SettingBrokenIgnoresCase(custom: map<string, Option<string>>, key: string)
    ensures SettingBroken(custom, key)
        <==> key !in custom || custom[key].None? || EqualFold(custom[key].value, "true")
  {
    if key in custom && custom[key].Some? {
      assert ToLower("true") == "true" by {
        var t := ToLower("true");
        assert t[0] == 't' && t[1] == 'r' && t[2] == 'u' && t[3] == 'e';
      }
      EqualFoldIffSameLower(custom[key].value, "true");
    }
  }

  /** The search over the fixed list: some listed switch is broken. */
  function AnyBroken(custom: map<string, Option<string>>, keys: seq<string>): (r: bool)
    ensures r <==> exists i :: 0 <= i < |keys| && SettingBroken(custom, keys[i])
  {
    if keys == [] then false
    else if SettingBroken(custom, keys[0]) then true
    else
      var r := AnyBroken(custom, keys[1..]);
      assert r <==> exists i :: 0 <= i < |keys| && SettingBroken(custom, keys[i]) by {
        assert forall i :: 1 <= i < |keys| ==> keys[i] == keys[1..][i - 1];
      }
      r
  }

  /** The check shared by apim-009 and apim-010: absent custom properties are a violation, and so
      is any listed switch that is missing or enabled. */
  function CustomPropertiesCheck(custom: Option<map<string, Option<string>>>, keys: seq<string>): (r: Outcome)
    ensures r.violated <==> custom.None? || exists i :: 0 <= i < |keys| && SettingBroken(custom.value, keys[i])
    ensures r.detail == ""
  {
    Outcome(custom.None? || AnyBroken(custom.value, keys), "")
  }

  /** The closure body of apim-009 and apim-010: the list is scanned in order and the first broken
      switch returns at once. */
  method CheckCustomProperties(custom: Option<map<string, Option<string>>>, notAllowed: seq<string>) returns (r: Outcome)
    ensures r == CustomPropertiesCheck(custom, notAllowed)
  {
    if custom.Some? {
      var i := 0;
      while i < |notAllowed|
        invariant 0 <= i <= |notAllowed|
        invariant forall j :: 0 <= j < i ==> !SettingBroken(custom.value, notAllowed[j])
      {
        var v := notAllowed[i];
        var broken := v !in custom.value || custom.value[v].None? || ToLower(custom.value[v].value) == "true";
        if broken {
          return Outcome(broken, "");
        }
        i := i + 1;
      }
    } else {
      return Outcome(true, "");
    }
    return Outcome(false, "");
  }

  /** apim-009: only TLS 1.2 and later may be accepted. */
  function MinimumTls(s: ServiceResource): (r: Outcome)
    ensures !r.violated <==> s.properties.customProperties.Some? && forall i :: 0 <= i < |ProtocolSettings| ==>
      !SettingBroken(s.properties.customProperties.value, ProtocolSettings[i])
    ensures r.detail == ""
  {
    CustomPropertiesCheck(s.properties.customProperties, ProtocolSettings)
  }

  /** apim-010: weak or deprecated ciphers must be switched off. */
  function WeakCiphers(s: ServiceResource): (r: Outcome)
    ensures !r.violated <==> s.properties.customProperties.Some? && forall i :: 0 <= i < |CipherSettings| ==>
      !SettingBroken(s.properties.customProperties.value, CipherSettings[i])
    ensures r.detail == ""
  {
    CustomPropertiesCheck(s.properties.customProperties, CipherSettings)
  }

  // ---------------------------------------------------------------------------------------------
  // apim-011: expiring certificates

  /** `time.Until(expiry).Hours() / 24 <= 30`, stated exactly on whole seconds. */
  predicate ExpiresWithinWindow(expiry: int, now: int) {
    expiry - now <= ExpiryWindowDays * SecondsPerDay
  }

  /** A configuration with a certificate whose expiry date is known and near. Configurations
      without a certificate or without an expiry date never count. */
  predicate CertificateExpiring(hc: HostnameConfiguration, now: int) {
    hc.certificate.Some? && hc.certificate.value.expiry.Some?
    && ExpiresWithinWindow(hc.certificate.value.expiry.value, now)
  }

  /** The search over the hostname configurations. */
  function AnyExpiring(configs: seq<HostnameConfiguration>, now: int): (r: bool)
    ensures r <==> exists i :: 0 <= i < |configs| && CertificateExpiring(configs[i], now)
  {
    if configs == [] then false
    else if CertificateExpiring(configs[0], now) then true
    else
      var r := AnyExpiring(configs[1..], now);
      assert r <==> exists i :: 0 <= i < |configs| && CertificateExpiring(configs[i], now) by {
        assert forall i :: 1 <= i < |configs| ==> configs[i] == configs[1..][i - 1];
      }
      r
  }

  /** apim-011: some hostname configuration has a certificate that expires within 30 days of
      `now`; an absent list is not a violation. */
  function ExpiringCertificates(s: ServiceResource, now: int): (r: Outcome)
    ensures r.violated <==> (
      && s.properties.hostnameConfigurations.Some?
      && exists i :: 0 <= i < |s.properties.hostnameConfigurations.value|
                     && CertificateExpiring(s.properties.hostnameConfigurations.value[i], now))
    ensures r.detail == ""
  {
    Outcome(s.properties.hostnameConfigurations.Some? && AnyExpiring(s.properties.hostnameConfigurations.value, now), "")
  }

  /** The closure body of apim-011: the configurations are scanned in order and the first
      expiring certificate returns at once. */
  method ScanHostnameConfigurations(s: ServiceResource, now: int) returns (r: Outcome)
    ensures r == ExpiringCertificates(s, now)
  {
    if s.properties.hostnameConfigurations.Some? {
      var configs := s.properties.hostnameConfigurations.value;
      var i := 0;
      while i < |configs|
        invariant 0 <= i <= |configs|
        invariant forall j :: 0 <= j < i ==> !CertificateExpiring(configs[j], now)
      {
        var v := configs[i];
        if v.certificate.Some? && v.certificate.value.expiry.Some? {
          var secondsLeft := v.certificate.value.expiry.value - now;
          if secondsLeft <= ExpiryWindowDays * SecondsPerDay {
            return Outcome(true, "");
          }
        }
        i := i + 1;
      }
    }
    return Outcome(false, "");
  }

  /** Adding hostname configurations can only add expiring certificates. */
  lemma {:induction false} AnyExpiringAppend(a: seq<HostnameConfiguration>, b: seq<HostnameConfiguration>, now: int)
    ensures AnyExpiring(a + b, now) <==> AnyExpiring(a, now) || AnyExpiring(b, now)
  {
    if a != [] {
      assert (a + b)[1..] == a[1..] + b;
      AnyExpiringAppend(a[1..], b, now);
    } else {
      assert a + b == b;
    }
  }

  // ---------------------------------------------------------------------------------------------
  // The catalogue

  /** The catalogue. `now` stands for the clock that apim-011 reads. */
  function GetRules(now: int): (rules: map<string, AzureRule<ServiceResource>>)
    ensures rules.Keys == RuleIds
  {
    map[
      "apim-001" := AzureRule("apim-001", MonitoringAndAlerting, "APIM should have diagnostic settings enabled", Low,
        (s: ServiceResource, ctx: ScanContext) => DiagnosticSettings(s, ctx),
        DiagnosticsUrl),
      "apim-002" := AzureRule("apim-002", HighAvailability, "APIM should have availability zones enabled", High,
        (s: ServiceResource, ctx: ScanContext) => AvailabilityZones(s),
        ZonesUrl),
      "apim-003" := AzureRule("apim-003", HighAvailability, "APIM should have a SLA", High,
        (s: ServiceResource, ctx: ScanContext) => Sla(s),
        SlaUrl),
      "apim-004" := AzureRule("apim-004", Security, "APIM should have private endpoints enabled", High,
        (s: ServiceResource, ctx: ScanContext) => PrivateEndpoints(s),
        PrivateEndpointUrl),
      "apim-005" := AzureRule("apim-005", HighAvailability, "Azure APIM SKU", High,
        (s: ServiceResource, ctx: ScanContext) => SkuTier(s),
        FeaturesUrl),
      "apim-006" := AzureRule("apim-006", Governance, "APIM should comply with naming conventions", Low,
        (s: ServiceResource, ctx: ScanContext) => NamingConvention(s),
        NamingUrl),
      "apim-007" := AzureRule("apim-007", Governance, "APIM should have tags", Low,
        (s: ServiceResource, ctx: ScanContext) => TagsRule(s),
        TagsUrl),
      "apim-008" := AzureRule("apim-008", Security, "APIM should use Managed Identities", Medium,
        (s: ServiceResource, ctx: ScanContext) => ManagedIdentity(s),
        IdentityUrl),
      "apim-009" := AzureRule("apim-009", Security, "APIM should only accept a minimum of TLS 1.2", High,
        (s: ServiceResource, ctx: ScanContext) => MinimumTls(s),
        ProtocolsCiphersUrl),
      "apim-010" := AzureRule("apim-010", Security, "APIM should should not accept weak or deprecated ciphers.", High,
        (s: ServiceResource, ctx: ScanContext) => WeakCiphers(s),
        ProtocolsCiphersUrl),
      "apim-011" := AzureRule("apim-011", Security, "APIM: Renew expiring certificates", High,
        (s: ServiceResource, ctx: ScanContext) => ExpiringCertificates(s, now),
        CustomDomainUrl),
      "apim-012" := AzureRule("apim-012", HighAvailability, "APIM: Migrate instance hosted on the stv1 platform to stv2", High,
        (s: ServiceResource, ctx: ScanContext) => PlatformVersion(s),
        Stv2MigrationUrl)
    ]
  }

  /** Every entry is stored under its own id and can be evaluated on any service and context. */
  lemma RulesWellFormed(now: int)
    ensures var rules := GetRules(now);
      forall id :: id in rules ==>
        && rules[id].id == id
        && forall s, ctx :: rules[id].eval.requires(s, ctx)
  {
    var rules := GetRules(now);
    forall id | id in rules
      ensures rules[id].id == id && forall s, ctx :: rules[id].eval.requires(s, ctx)
    {
      if id == "apim-001" {
      } else if id == "apim-002" {
      } else if id == "apim-003" {
      } else if id == "apim-004" {
      } else if id == "apim-005" {
      } else if id == "apim-006" {
      } else if id == "apim-007" {
      } else if id == "apim-008" {
      } else if id == "apim-009" {
      } else if id == "apim-010" {
      } else if id == "apim-011" {
      } else {
        assert id == "apim-012";
      }
    }
  }

  /** Each registry entry evaluates to the rule of the same id above. */
  lemma RulesDispatch(now: int, s: ServiceResource, ctx: ScanContext)
    ensures var rules := GetRules(now);
      && rules["apim-001"].eval(s, ctx) == DiagnosticSettings(s, ctx)
      && rules["apim-002"].eval(s, ctx) == AvailabilityZones(s)
      && rules["apim-003"].eval(s, ctx) == Sla(s)
      && rules["apim-004"].eval(s, ctx) == PrivateEndpoints(s)
      && rules["apim-005"].eval(s, ctx) == SkuTier(s)
      && rules["apim-006"].eval(s, ctx) == NamingConvention(s)
      && rules["apim-007"].eval(s, ctx) == TagsRule(s)
      && rules["apim-008"].eval(s, ctx) == ManagedIdentity(s)
      && rules["apim-009"].eval(s, ctx) == MinimumTls(s)
      && rules["apim-010"].eval(s, ctx) == WeakCiphers(s)
      && rules["apim-011"].eval(s, ctx) == ExpiringCertificates(s, now)
      && rules["apim-012"].eval(s, ctx) == PlatformVersion(s)
  {
  }

  // ---------------------------------------------------------------------------------------------
  // Relations between rules

  /** apim-003 reports no SLA only for a SKU that apim-005 also flags. */
  lemma NoSlaOnlyForDeveloper(s: ServiceResource)
    ensures Sla(s).violated ==> SkuTier(s).violated
  {
  }

  /** A Premium service with a zone has the 99.99% SLA and passes apim-003. */
  lemma PremiumZonedSla(s: ServiceResource)
    requires s.sku.name == "Premium" && s.zones != []
    ensures Sla(s) == Outcome(false, "99.99%")
  {
    assert OccursAt(s.sku.name, "Premium", 0);
  }

  /** A Developer service has no SLA: apim-003 and apim-005 both report it. */
  lemma DeveloperSkuFlagged(s: ServiceResource)
    requires s.sku.name == "Developer"
    ensures Sla(s) == Outcome(true, "None")
    ensures SkuTier(s) == Outcome(true, "Developer")
  {
    NotContainsWithoutFirstChar(s.sku.name, "Premium");
    assert OccursAt(s.sku.name, "Developer", 0);
  }

  /** A name that begins with the "apim" abbreviation passes apim-006. */
  lemma NamingExample(s: ServiceResource)
    requires s.name == "apim-prod-01"
    ensures !NamingConvention(s).violated
  {
    assert s.name == "apim" + "-prod-01";
  }

  /** Absent optional fields: no custom properties fails both apim-009 and apim-010, no identity
      fails apim-008, and no hostname configurations passes apim-011. */
  lemma FailSafeDefaults(s: ServiceResource, now: int)
    ensures s.properties.customProperties.None? ==> MinimumTls(s).violated && WeakCiphers(s).violated
    ensures s.identity.None? ==> ManagedIdentity(s).violated
    ensures s.properties.hostnameConfigurations.None? ==> !ExpiringCertificates(s, now).violated
  {
  }

  /** The early return does not make the order of the fixed list matter: any list with the same
      switches gives the same answer. */
  lemma AnyBrokenIgnoresOrder(custom: map<string, Option<string>>, a: seq<string>, b: seq<string>)
    requires multiset(a) == multiset(b)
    ensures AnyBroken(custom, a) == AnyBroken(custom, b)
  {
    forall x: string | x in a ensures x in b {
      assert x in multiset(a);
    }
    forall x: string | x in b ensures x in a {
      assert x in multiset(b);
    }
    if AnyBroken(custom, a) {
      var i :| 0 <= i < |a| && SettingBroken(custom, a[i]);
      assert a[i] in b;
      var j :| 0 <= j < |b| && b[j] == a[i];
    }
    if AnyBroken(custom, b) {
      var j :| 0 <= j < |b| && SettingBroken(custom, b[j]);
      assert b[j] in a;
      var i :| 0 <= i < |a| && a[i] == b[j];
    }
  }

  /** A certificate that is flagged now is still flagged later: apim-011 never clears by waiting. */
  lemma ExpiringStaysExpiring(s: ServiceResource, now: int, later: int)
    requires now <= later
    ensures ExpiringCertificates(s, now).violated ==> ExpiringCertificates(s, later).violated
  {
    if ExpiringCertificates(s, now).violated {
      var configs := s.properties.hostnameConfigurations.value;
      var i :| 0 <= i < |configs| && CertificateExpiring(configs[i], now);
      assert CertificateExpiring(configs[i], later);
    }
  }

  /** A service that sets every listed protocol and cipher switch to "false" passes apim-009 and
      apim-010. */
  lemma HardenedServicePasses(s: ServiceResource)
    requires s.properties.customProperties.Some?
    requires forall k :: k in ProtocolSettings || k in CipherSettings ==>
      k in s.properties.customProperties.value && s.properties.customProperties.value[k] == Some("false")
    ensures !MinimumTls(s).violated
    ensures !WeakCiphers(s).violated
  {
    var custom := s.properties.customProperties.value;
    forall k | k in ProtocolSettings || k in CipherSettings
      ensures !SettingBroken(custom, k)
    {
      assert |ToLower("false")| == 5;
    }
  }
}
