# azqr rule catalogues in Dafny

azqr (Azure Quick Review) scans Azure resources. For each resource kind it has a catalogue that
maps a rule id to a rule record. The record holds the rule's id, category, impact, an optional
type, a documentation link and an `Eval` closure. `Eval` reads one resource and the scan
session's shared context, and returns a `(violated, detail)` pair. This project models four
catalogues and proves, rule by rule, exactly when a rule reports a violation and what detail it
carries:

- API Management services: apim-001 … apim-012
- Application Gateways: agw-001 … agw-005, agw-007, agw-008, agw-103 … agw-106
- Event Hub namespaces: evh-001 … evh-008
- Private Endpoints: pep-003, pep-006, pep-007

Modules, one per file:

- `Strings` (`strings.dfy`): the string operations the rules use. These are ASCII `ToLower`,
  `HasPrefix` and `Contains`, each tied to a declarative meaning (an element-wise map, a split
  `s == prefix + rest`, an occurrence at some index).
- `Core` (`core.dfy`): the pieces every catalogue shares.
  - The two rule records, `AzureRule` and `AzqrRecommendation`. They are typed by the resource
    kind, which replaces the source's runtime type assertions.
  - The scan context, reduced to the set of lower-cased resource ids that have diagnostic
    settings.
  - The `Outcome` of one evaluation.
  - A minimal apply-every-rule function, `ApplyRules`/`ApplyRecommendations`, that evaluates
    every rule of a registry once on one resource.
- `Apim`, `Agw`, `Evh`, `Pep`: one module per catalogue.
  - A datatype for the resource, with `Option` wherever the source tests a pointer against nil.
  - One function per rule.
  - The registry as a map literal (`GetRules`/`GetRecommendations`).
  - A method with a `while` loop for each rule whose closure loops, proved equal to its rule
    function.
  - Lemmas about the registry and about the rules.

How the model differs from the source:

- Fields that the source dereferences without a nil check are required fields. Examples are the
  SKU name, the id, the name, `PlatformVersion`, `ZoneRedundant` and `ConnectionDraining.Enabled`.
- agw-104 dereferences an optional SKU name. Its registry entry is therefore a partial function
  whose precondition is `Agw.HasSkuName`.
- A Go `nil` slice or map is indistinguishable from an empty one wherever the code only takes
  `len` or ranges over it. There it is an (empty) `seq` or `map`. It is an `Option` only where
  the code compares it with `nil`: apim `CustomProperties` and `HostnameConfigurations`, agw
  `Zones`, `SSLCertificates` and `BackendHTTPSettingsCollection`.
- apim-011 compares `time.Until(expiry).Hours() / 24` with 30. Here times are whole seconds and
  `now` is a parameter of `Apim.GetRules`. The condition is the exact rational form
  `expiry - now <= 30 * 86400`.
- The fail-safe default has exceptions. Missing data usually means "violated", but the code says
  otherwise in two places: an absent backend-settings collection passes agw-008, and absent
  hostname configurations pass apim-011. The model follows the code (`Agw.FailSafeDefaults`,
  `Apim.FailSafeDefaults`).

## Model

| member | source | states |
|---|---|---|
| Strings.ToLower | internal/scanners/apim/rules.go:24 | lower-cases each character in place: same length, each character mapped, no upper-case letter left |
| Strings.ToLowerIdempotent | internal/scanners/apim/rules.go:24 | lower-casing an already lower-cased id changes nothing, so the context's keys are fixed points |
| Strings.EqualFoldIffSameLower | internal/scanners/apim/rules.go:136 | two strings equal up to ASCII case are exactly those with the same lower-case form |
| Strings.HasPrefixIffSplit | internal/scanners/apim/rules.go:91 | the prefix test holds exactly when the string is the prefix followed by some rest |
| Strings.Contains | internal/scanners/apim/rules.go:50 | the substring test holds exactly when the pattern occurs at some index |
| Strings.NotContainsWithoutFirstChar | internal/scanners/evh/rules.go:49 | a string that lacks the pattern's first character does not contain the pattern |
| Core.DiagnosticLookupIgnoresCase | internal/scanners/apim/rules.go:24 | over a context keyed by lower-cased ids, the lookup holds iff some key equals the id up to case |
| Core.DiagnosticLookupCaseBlind | internal/scanners/agw/rules.go:80 | ids that differ only in case get the same diagnostics answer |
| Core.ApplyRules | internal/scanners/apim/rules.go:15-16 | applying a registry gives one finding per rule id, carrying that rule's id, category, impact and its `Eval` outcome |
| Core.ApplyRecommendations | internal/scanners/nw/nw.go:33-38 | the same for `AzqrRecommendation` registries, keyed by `RecommendationID` |
| Apim.DiagnosticSettings | internal/scanners/apim/rules.go:22-26 | apim-001 is violated iff the lower-cased service id is not a diagnostics key; detail "" |
| Apim.AvailabilityZones | internal/scanners/apim/rules.go:34-38 | apim-002 is violated iff the zone list is empty; detail "" |
| Apim.Sla | internal/scanners/apim/rules.go:46-57 | apim-003: "99.99%" iff Premium with zones or additional locations, else "None" iff the SKU contains Developer, else "99.95%"; violated iff "None" |
| Apim.PrivateEndpoints | internal/scanners/apim/rules.go:65-69 | apim-004 is violated iff there are no private-endpoint connections; detail "" |
| Apim.SkuTier | internal/scanners/apim/rules.go:77-81 | apim-005 is violated iff the SKU name contains "Developer"; the detail is the SKU name |
| Apim.NamingConvention | internal/scanners/apim/rules.go:89-93 | apim-006 is violated iff the name is not "apim" followed by something; detail "" |
| Apim.TagsRule | internal/scanners/apim/rules.go:101-104 | apim-007 is violated iff the tag map is empty; detail "" |
| Apim.ManagedIdentity | internal/scanners/apim/rules.go:112-115 | apim-008 passes iff an identity with a present type other than "None" exists; detail "" |
| Apim.PlatformVersion | internal/scanners/apim/rules.go:208-211 | apim-012 is violated iff the platform version is "stv1"; detail "" |
| Apim.SettingBrokenIgnoresCase | internal/scanners/apim/rules.go:136 | a listed switch is broken iff it is missing, nil, or equal to "true" up to ASCII case |
| Apim.AnyBroken | internal/scanners/apim/rules.go:135-140 | the search over a switch list holds iff some listed switch is broken |
| Apim.CustomPropertiesCheck | internal/scanners/apim/rules.go:134-145 | absent custom properties are a violation; otherwise violated iff some listed switch is broken; detail "" |
| Apim.CheckCustomProperties | internal/scanners/apim/rules.go:134-145 | the in-order loop with early return computes exactly the shared check |
| Apim.MinimumTls | internal/scanners/apim/rules.go:123-146 | apim-009 passes iff custom properties are present and none of the six protocol switches is broken; detail "" |
| Apim.WeakCiphers | internal/scanners/apim/rules.go:154-179 | apim-010 passes iff custom properties are present and none of the eight cipher switches is broken; detail "" |
| Apim.AnyBrokenIgnoresOrder | internal/scanners/apim/rules.go:135-140 | the early return makes no difference: any reordering of the switch list gives the same answer |
| Apim.HardenedServicePasses | internal/scanners/apim/rules.go:124-145 | a service with every listed switch set to "false" passes apim-009 and apim-010 |
| Apim.AnyExpiring | internal/scanners/apim/rules.go:190-197 | the search holds iff some configuration has a certificate with an expiry within 30 days of now |
| Apim.ExpiringCertificates | internal/scanners/apim/rules.go:187-200 | apim-011 is violated iff the configurations are present and one of them has a certificate expiring within 30 days; configurations without a certificate or expiry are skipped; detail "" |
| Apim.ScanHostnameConfigurations | internal/scanners/apim/rules.go:187-200 | the loop with early return computes exactly apim-011 |
| Apim.AnyExpiringAppend | internal/scanners/apim/rules.go:190-197 | the search over a concatenation is the disjunction of the searches over its parts |
| Apim.ExpiringStaysExpiring | internal/scanners/apim/rules.go:192-193 | a service flagged by apim-011 at some time is still flagged at every later time |
| Apim.GetRules | internal/scanners/apim/rules.go:15-215 | the registry holds exactly the ids apim-001 … apim-012 |
| Apim.RulesWellFormed | internal/scanners/apim/rules.go:16-214 | every entry is stored under its own id and can be evaluated on every service and context |
| Apim.RulesDispatch | internal/scanners/apim/rules.go:16-214 | the entry under each id evaluates to that id's rule function |
| Apim.NoSlaOnlyForDeveloper | internal/scanners/apim/rules.go:50-56 | whenever apim-003 reports no SLA, apim-005 also reports a Developer SKU |
| Apim.PremiumZonedSla | internal/scanners/apim/rules.go:50-51 | a Premium service with zones gets `(false, "99.99%")` from apim-003 |
| Apim.DeveloperSkuFlagged | internal/scanners/apim/rules.go:46-57 | a Developer service gets `(true, "None")` from apim-003 and `(true, "Developer")` from apim-005 |
| Apim.NamingExample | internal/scanners/apim/rules.go:91-92 | the name "apim-prod-01" passes apim-006 |
| Apim.FailSafeDefaults | internal/scanners/apim/rules.go:114 | absent custom properties fail apim-009 and apim-010, an absent identity fails apim-008, and absent hostname configurations pass apim-011 |
| Agw.Autoscale | internal/scanners/agw/rules.go:21-25 | agw-001 passes iff the autoscale configuration and its minimum capacity are present and the minimum is at least 2; detail "" |
| Agw.HasHttpsPort | internal/scanners/agw/rules.go:36-41 | the port search holds iff some frontend port has a present port equal to 443 |
| Agw.Ssl | internal/scanners/agw/rules.go:33-46 | agw-002 passes iff some frontend port is 443 and the certificate list is present and non-empty; detail "" |
| Agw.ScanFrontendPorts | internal/scanners/agw/rules.go:33-46 | the loop with `break` computes exactly agw-002 |
| Agw.Waf | internal/scanners/agw/rules.go:54-58 | agw-003 passes iff the WAF configuration and its `Enabled` flag are present and true; detail "" |
| Agw.V2Sku | internal/scanners/agw/rules.go:66-70 | agw-004 passes iff the SKU and its name are present and the name contains "_v2"; detail "" |
| Agw.DiagnosticSettings | internal/scanners/agw/rules.go:78-82 | agw-005 is violated iff the lower-cased gateway id is not a diagnostics key; detail "" |
| Agw.AvailabilityZones | internal/scanners/agw/rules.go:90-94 | agw-007 is violated iff zones are absent or there is at most one; detail "" |
| Agw.AllDraining | internal/scanners/agw/rules.go:110-115 | the draining search holds iff every backend setting has connection draining present and enabled |
| Agw.BackendDraining | internal/scanners/agw/rules.go:102-118 | agw-008 is violated iff the collection is present and some setting does not drain; an absent or empty collection passes; detail "" |
| Agw.ScanBackendSettings | internal/scanners/agw/rules.go:102-118 | the loop with `break` computes exactly agw-008 |
| Agw.AllDrainingAppend | internal/scanners/agw/rules.go:110-115 | the draining search over a concatenation is the conjunction of the searches over its parts |
| Agw.Sla | internal/scanners/agw/rules.go:126-128 | agw-103 never reports a violation and always carries "99.95%" |
| Agw.SkuInfo | internal/scanners/agw/rules.go:136-139 | agw-104 never reports a violation and carries the SKU name; it needs the SKU name to be present |
| Agw.NamingConvention | internal/scanners/agw/rules.go:147-151 | agw-105 is violated iff the name is not "agw" followed by something; detail "" |
| Agw.TagsRule | internal/scanners/agw/rules.go:159-162 | agw-106 is violated iff the tag map is empty; detail "" |
| Agw.GetRules | internal/scanners/agw/rules.go:14-166 | the registry holds exactly agw-001 … agw-005, agw-007, agw-008 and agw-103 … agw-106 |
| Agw.RulesWellFormed | internal/scanners/agw/rules.go:15-165 | every entry is stored under its own id; every entry but agw-104 can be evaluated on every gateway, and agw-104 exactly on gateways with a SKU name |
| Agw.RulesDispatch | internal/scanners/agw/rules.go:15-165 | on every gateway, the entry under each id evaluates to that id's rule function; agw-104 does so on every gateway with a SKU name |
| Agw.RegistryFailSafe | internal/scanners/agw/rules.go:66-106 | through the registry, a gateway without a SKU fails agw-004 and one without a backend collection passes agw-008 |
| Agw.InformationalFindings | internal/scanners/agw/rules.go:121-140 | applying the catalogue gives agw-103 `(false, "99.95%")` and agw-104 `(false, SKU name)`, with their declared category and impact |
| Agw.FailSafeDefaults | internal/scanners/agw/rules.go:23-117 | absent autoscale, certificates, WAF configuration, SKU or zones fail their rules; an absent backend collection passes agw-008 |
| Agw.AbsentMatchesEmpty | internal/scanners/agw/rules.go:43-117 | an absent and an empty certificate list, zone list or backend collection give the same outcome |
| Agw.V2ZonedExample | internal/scanners/agw/rules.go:68-93 | a "Standard_v2" gateway on two zones passes agw-004 and agw-007 |
| Evh.DiagnosticSettings | internal/scanners/evh/rules.go:21-25 | evh-001 is violated iff the lower-cased namespace id is not a diagnostics key; detail "" |
| Evh.ZoneRedundancy | internal/scanners/evh/rules.go:33-37 | evh-002 is violated iff the namespace is not zone redundant; detail "" |
| Evh.Sla | internal/scanners/evh/rules.go:45-53 | evh-003 never reports a violation; the detail is "99.95%" iff the SKU contains Basic or Standard, and "99.99%" otherwise |
| Evh.PrivateEndpoints | internal/scanners/evh/rules.go:61-65 | evh-004 is violated iff there are no private-endpoint connections; detail "" |
| Evh.SkuInfo | internal/scanners/evh/rules.go:73-76 | evh-005 never reports a violation and carries the SKU name |
| Evh.NamingConvention | internal/scanners/evh/rules.go:84-88 | evh-006 is violated iff the name is not "evh" followed by something; detail "" |
| Evh.TagsRule | internal/scanners/evh/rules.go:96-99 | evh-007 is violated iff the tag map is empty; detail "" |
| Evh.LocalAuth | internal/scanners/evh/rules.go:107-111 | evh-008 passes iff `DisableLocalAuth` is present and true; detail "" |
| Evh.GetRules | internal/scanners/evh/rules.go:14-115 | the registry holds exactly evh-001 … evh-008 |
| Evh.RulesWellFormed | internal/scanners/evh/rules.go:15-114 | every entry is stored under its own id and can be evaluated on every namespace and context |
| Evh.RulesDispatch | internal/scanners/evh/rules.go:15-114 | the entry under each id evaluates to that id's rule function |
| Evh.SlaByTier | internal/scanners/evh/rules.go:47-52 | Basic and Standard namespaces get `(false, "99.95%")`, Premium ones `(false, "99.99%")` |
| Evh.LocalAuthFailSafe | internal/scanners/evh/rules.go:109-110 | an absent flag fails evh-008 exactly as an explicit `false` does |
| Pep.Sla | internal/scanners/pep/rules.go:23-25 | pep-003 reports `(false, "99.99%")` for every endpoint and context |
| Pep.NamingConvention | internal/scanners/pep/rules.go:34-38 | pep-006 is violated iff the name is not "pep" followed by something; detail "" |
| Pep.TagsRule | internal/scanners/pep/rules.go:47-50 | pep-007 is violated iff the tag map is empty; detail "" |
| Pep.GetRecommendations | internal/scanners/pep/rules.go:14-54 | the registry holds exactly pep-003, pep-006 and pep-007 |
| Pep.RecommendationsWellFormed | internal/scanners/pep/rules.go:16-44 | every entry is stored under its own id, names the private-endpoint resource type, is SLA-typed iff it is pep-003, and can always be evaluated |
| Pep.EndpointFindings | internal/scanners/pep/rules.go:16-52 | applying the catalogue to an endpoint yields exactly the three findings with their declared category, impact, flag and detail |

## Left out

- Scanner plumbing in `vgw.go` and `nw.go`: SDK client construction, paging through resource
  lists, resource-group listing, logging, and copying SDK values into result records. All of it
  is I/O against Azure services.
- `RecommendationEngine.EvaluateRecommendations` is not part of this model; its code is not
  available. `Core.ApplyRules` and `Core.ApplyRecommendations` are minimal apply-every-rule
  functions keyed by rule id. They state nothing about the real engine's ordering, filtering or
  result format.
- Core.ApplyRules: no caller of an `AzureRule` registry (apim, agw, evh) appears in the code
  modelled here. Both visible call sites, in `vgw.go` and `nw.go`, pass `AzqrRecommendation`
  registries to the engine, so `ApplyRules` mirrors `ApplyRecommendations` rather than a shown
  call.
- Core.ApplyRules: the result is a map, so it does not say in which order rules are evaluated.
- The definitions of `AzureRule`, `AzqrRecommendation`, `ScanContext` and the category and
  impact constants are not part of this model. Their shapes are reconstructed from how the
  catalogues use them.
- Go runtime type assertions (`target.(*T)`) and the panic on a mismatched resource: a registry
  typed by resource kind makes them impossible.
- Panics on nil dereferences: each unchecked field is required, or it is a precondition
  (agw-104). The model does not say what happens when such a field is nil.
- Apim.ExpiringCertificates: `time.Until`, the wall clock and floating-point `Hours()/24`
  become whole seconds and an explicit `now`. The model does not capture sub-second resolution
  or float rounding at the 30-day boundary.
- Strings.ToLower: lower-cases ASCII letters only, not the full Unicode mapping of Go's
  `strings.ToLower`. That is enough for resource ids and the "true" comparison.
- The diagnostics-settings values of the scan context: the rules only test key presence, so the
  context is a set of keys.
- Recommendation texts and documentation URLs are carried as opaque strings; nothing is proved
  about them.
- List elements: the elements of `HostnameConfigurations`, `FrontendPorts` and
  `BackendHTTPSettingsCollection` are dereferenced unchecked, so they are required values, not
  `Option`s. The `Properties` records of a frontend port and of a backend HTTP setting, also
  dereferenced unchecked, are folded into the element. A hostname configuration has no such
  record: its `Certificate` is read on the element directly.
