/** The Private Endpoint catalogue: `PrivateEndpointScanner.GetRecommendations`, rules pep-003,
    pep-006 and pep-007. */
module Pep {
  import opened Strings
  import opened Core

  /** `armnetwork.PrivateEndpoint`, reduced to what the rules read. `Name` is dereferenced
      without a nil check, so it is a required field. */
  datatype PrivateEndpoint = PrivateEndpoint(name: string, tags: Tags)

  const ResourceType := "Microsoft.Network/privateEndpoints"

  const RecommendationIds: set<string> := {"pep-003", "pep-006", "pep-007"}

  // Documentation links, kept as opaque data.
  const SlaUrl := "https://www.microsoft.com/licensing/docs/view/Service-Level-Agreements-SLA-for-Online-Services"
  const NamingUrl := "https://learn.microsoft.com/en-us/azure/cloud-adoption-framework/ready/azure-best-practices/resource-abbreviations"
  const TagsUrl := "https://learn.microsoft.com/en-us/azure/azure-resource-manager/management/tag-resources?tabs=json"

  /** pep-003: informational; it reports the SLA whatever the endpoint or context. */
  function Sla(p: PrivateEndpoint, ctx: ScanContext): (r: Outcome)
    ensures !r.violated && r.detail == "99.99%"
  {
    Outcome(false, "99.99%")
  }

  /** pep-006: the name must start with "pep". */
  function NamingConvention(p: PrivateEndpoint): (r: Outcome)
    ensures r.violated <==> !exists rest :: p.name == "pep" + rest
    ensures r.detail == ""
  {
    HasPrefixIffSplit(p.name, "pep");
    Outcome(!HasPrefix(p.name, "pep"), "")
  }

  /** pep-007: the endpoint must carry at least one tag. */
  function TagsRule(p: PrivateEndpoint): (r: Outcome)
    ensures r.violated <==> p.tags == map[]
    ensures r.detail == ""
  {
    Outcome(|p.tags| == 0, "")
  }

  /** The catalogue: one entry per rule id, every entry for the private-endpoint resource type. */
  function GetRecommendations(): (recs: map<string, AzqrRecommendation<PrivateEndpoint>>)
    ensures recs.Keys == RecommendationIds
  {
    map[
      "pep-003" := AzqrRecommendation(
        "pep-003", ResourceType, HighAvailability, "Private Endpoint SLA", Some(TypeSla), High,
        (p: PrivateEndpoint, ctx: ScanContext) => Sla(p, ctx),
        SlaUrl),
      "pep-006" := AzqrRecommendation(
        "pep-006", ResourceType, Governance, "Private Endpoint Name should comply with naming conventions", None, Low,
        (p: PrivateEndpoint, ctx: ScanContext) => NamingConvention(p),
        NamingUrl),
      "pep-007" := AzqrRecommendation(
        "pep-007", ResourceType, Governance, "Private Endpoint should have tags", None, Low,
        (p: PrivateEndpoint, ctx: ScanContext) => TagsRule(p),
        TagsUrl)
    ]
  }

  /** Every entry is stored under its own id, names the private-endpoint resource type, is
      SLA-typed exactly when it is pep-003, and can be evaluated on any endpoint. */
  lemma RecommendationsWellFormed()
    ensures var recs := GetRecommendations();
      forall id :: id in recs ==>
        && recs[id].recommendationId == id
        && recs[id].resourceType == ResourceType
        && (recs[id].recommendationType == Some(TypeSla) <==> id == "pep-003")
        && forall p, ctx :: recs[id].eval.requires(p, ctx)
  {
    var recs := GetRecommendations();
    forall id | id in recs
      ensures
        && recs[id].recommendationId == id
        && recs[id].resourceType == ResourceType
        && (recs[id].recommendationType == Some(TypeSla) <==> id == "pep-003")
        && forall p, ctx :: recs[id].eval.requires(p, ctx)
    {
      if id == "pep-003" {
      } else if id == "pep-006" {
      } else {
        assert id == "pep-007";
      }
    }
  }

  /** What applying the whole catalogue to one endpoint yields, rule by rule. */
  lemma EndpointFindings(p: PrivateEndpoint, ctx: ScanContext)
    ensures var f := ApplyRecommendations(GetRecommendations(), p, ctx);
      && f.Keys == RecommendationIds
      && f["pep-003"] == Finding("pep-003", HighAvailability, High, false, "99.99%")
      && f["pep-006"] == Finding("pep-006", Governance, Low, !HasPrefix(p.name, "pep"), "")
      && f["pep-007"] == Finding("pep-007", Governance, Low, p.tags == map[], "")
  {
    var recs := GetRecommendations();
    var f := ApplyRecommendations(recs, p, ctx);
    assert f["pep-003"] == RecommendationFinding(recs["pep-003"], p, ctx);
    assert f["pep-006"] == RecommendationFinding(recs["pep-006"], p, ctx);
    assert f["pep-007"] == RecommendationFinding(recs["pep-007"], p, ctx);
  }
}
