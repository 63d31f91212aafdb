/** The shapes every rule catalogue shares: the rule records of the `scanners` and `azqr`
    packages, the scan context that all evaluations read, the (violated, detail) outcome of one
    evaluation, and a minimal apply-every-rule function over one resource. */
module Core {
  import opened Strings

  datatype Option<+T> = None | Some(value: T)

  /** Go's `int32`, used for port numbers and instance counts. */
  type Int32 = x: int | -0x8000_0000 <= x < 0x8000_0000

  /** Resource tags: `map[string]*string`. */
  type Tags = map<string, Option<string>>

  datatype Category = Scalability | Security | HighAvailability | MonitoringAndAlerting | Governance

  datatype Impact = High | Medium | Low

  /** The rule types that appear in these catalogues: only the SLA-informational one. */
  datatype RecommendationType = TypeSla

  /** Data computed once per scan session and read by every evaluation: the set of resource ids,
      lower-cased, that have diagnostic settings. Only the presence of a key is ever read. */
  datatype ScanContext = ScanContext(diagnosticsSettings: set<string>)

  /** The result of one `Eval`: the violation flag and the free-form detail string. */
  datatype Outcome = Outcome(violated: bool, detail: string)

  /** `scanners.AzureRule`: one rule of a catalogue, typed by the resource kind it inspects. */
  datatype AzureRule<!R> = AzureRule(
    id: string,
    category: Category,
    recommendation: string,
    impact: Impact,
    eval: (R, ScanContext) --> Outcome,
    url: string)

  /** `azqr.AzqrRecommendation`: the newer rule record, which also names its resource type and,
      optionally, a rule type. */
  datatype AzqrRecommendation<!R> = AzqrRecommendation(
    recommendationId: string,
    resourceType: string,
    category: Category,
    recommendation: string,
    recommendationType: Option<RecommendationType>,
    impact: Impact,
    eval: (R, ScanContext) --> Outcome,
    learnMoreUrl: string)

  /** The outcome of one rule against one resource, with the rule's declared data. */
  datatype Finding = Finding(id: string, category: Category, impact: Impact, violated: bool, detail: string)

  /** The diagnostics-settings lookup the monitoring rules perform: the lower-cased id is a key. */
  predicate HasDiagnosticSettings(ctx: ScanContext, resourceId: string) {
    ToLower(resourceId) in ctx.diagnosticsSettings
  }

  /** The context is keyed by lower-cased ids, as its builder promises. */
  ghost predicate Normalized(ctx: ScanContext) {
    forall k :: k in ctx.diagnosticsSettings ==> ToLower(k) == k
  }

  /** Over a case-normalized context the lookup is a case-insensitive membership test. */
  lemma DiagnosticLookupIgnoresCase(ctx: ScanContext, resourceId: string)
    requires Normalized(ctx)
    ensures HasDiagnosticSettings(ctx, resourceId)
        <==> exists k :: k in ctx.diagnosticsSettings && EqualFold(k, resourceId)
  {
    var low := ToLower(resourceId);
    if low in ctx.diagnosticsSettings {
      ToLowerIdempotent(resourceId);
      EqualFoldIffSameLower(low, resourceId);
    }
    if k :| k in ctx.diagnosticsSettings && EqualFold(k, resourceId) {
      EqualFoldIffSameLower(k, resourceId);
      assert k == low;
    }
  }

  /** Ids that differ only in ASCII case get the same answer, whatever the context holds. */
  lemma DiagnosticLookupCaseBlind(ctx: ScanContext, a: string, b: string)
    requires EqualFold(a, b)
    ensures HasDiagnosticSettings(ctx, a) == HasDiagnosticSettings(ctx, b)
  {
    EqualFoldIffSameLower(a, b);
  }

  function RuleFinding<R>(rule: AzureRule<R>, target: R, ctx: ScanContext): Finding
    requires rule.eval.requires(target, ctx)
  {
    var o := rule.eval(target, ctx);
    Finding(rule.id, rule.category, rule.impact, o.violated, o.detail)
  }

  function RecommendationFinding<R>(rec: AzqrRecommendation<R>, target: R, ctx: ScanContext): Finding
    requires rec.eval.requires(target, ctx)
  {
    var o := rec.eval(target, ctx);
    Finding(rec.recommendationId, rec.category, rec.impact, o.violated, o.detail)
  }

  /** Applies every rule of a registry once to one resource, keyed by rule id. It
      makes no claim about the order or filtering of the real evaluation engine. */
  function ApplyRules<R>(rules: map<string, AzureRule<R>>, target: R, ctx: ScanContext): (findings: map<string, Finding>)
    requires forall id :: id in rules ==> rules[id].eval.requires(target, ctx)
    ensures findings.Keys == rules.Keys
    ensures forall id :: id in findings ==>
      && findings[id].id == rules[id].id
      && findings[id].category == rules[id].category
      && findings[id].impact == rules[id].impact
      && Outcome(findings[id].violated, findings[id].detail) == rules[id].eval(target, ctx)
  {
    map id | id in rules :: RuleFinding(rules[id], target, ctx)
  }

  /** The same apply-every-rule function over `AzqrRecommendation` records. */
  function ApplyRecommendations<R>(recs: map<string, AzqrRecommendation<R>>, target: R, ctx: ScanContext): (findings: map<string, Finding>)
    requires forall id :: id in recs ==> recs[id].eval.requires(target, ctx)
    ensures findings.Keys == recs.Keys
    ensures forall id :: id in findings ==>
      && findings[id].id == recs[id].recommendationId
      && findings[id].category == recs[id].category
      && findings[id].impact == recs[id].impact
      && Outcome(findings[id].violated, findings[id].detail) == recs[id].eval(target, ctx)
  {
    map id | id in recs :: RecommendationFinding(recs[id], target, ctx)
  }
}
