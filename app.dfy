/**
 * The web interface's own copies of the agents' logic: a six-pattern risk
 * classifier, the PR lookup, an incident analysis without the cache branch
 * and without the severity alert, a remediation gate that tests its deny
 * rules first, and a cost tracker whose figures are fixed at construction.
 * Each is related here to the agent it shadows.
 */
module App {
  import opened Text
  import opened Records
  import opened Guardrails
  import opened RiskScan
  import GithubWatcher
  import OpsAgent
  import CostSentinel

  // ---------------------------------------------------------------------------
  // Pull-request risk
  // ---------------------------------------------------------------------------

  /** The six patterns, in dictionary order: the watcher's table without the YAML suffixes. */
  const AppPatterns: PatternTable := [
    ("config", GithubWatcher.ConfigurationFiles),
    ("env", GithubWatcher.EnvironmentVariables),
    ("secret", GithubWatcher.SecretsCredentials),
    ("auth", GithubWatcher.AuthenticationLogic),
    ("database", GithubWatcher.DatabaseSchema),
    ("migration", GithubWatcher.DatabaseMigrations)]

  /** `analyze_pr_risk` over the six patterns. */
  method AnalyzePrRisk(files: seq<string>) returns (a: Assessment)
    ensures Assesses(a, files, AppPatterns)
  {
    a := Classify(files, AppPatterns);
  }

  /** The six patterns carry six distinct descriptions. */
  lemma AppDescriptions()
    ensures Descriptions(AppPatterns) ==
      {GithubWatcher.ConfigurationFiles, GithubWatcher.EnvironmentVariables, GithubWatcher.SecretsCredentials,
       GithubWatcher.AuthenticationLogic, GithubWatcher.DatabaseSchema, GithubWatcher.DatabaseMigrations}
    ensures |Descriptions(AppPatterns)| == 6
  {
    var t := AppPatterns;
    assert t[0].1 == GithubWatcher.ConfigurationFiles && t[1].1 == GithubWatcher.EnvironmentVariables;
    assert t[2].1 == GithubWatcher.SecretsCredentials && t[3].1 == GithubWatcher.AuthenticationLogic;
    assert t[4].1 == GithubWatcher.DatabaseSchema && t[5].1 == GithubWatcher.DatabaseMigrations;
    GithubWatcher.DistinctDescriptions();
  }

  /** A HIGH tier here needs at least four of the six descriptions. */
  lemma AppHighNeedsFour(files: seq<string>, a: Assessment)
    requires Assesses(a, files, AppPatterns)
    ensures a.level == High <==> 4 <= |Matched(files, AppPatterns)|
    ensures |Matched(files, AppPatterns)| <= 6
  {
    MatchedWithinTable(files, AppPatterns);
    AppDescriptions();
  }

  /**
   * The web interface never rates a change higher than the watcher does: its
   * patterns are the watcher's first six, so it matches a subset.
   */
  lemma AppTierAtMostWatcher(files: seq<string>)
    ensures AppPatterns == GithubWatcher.GithubPatterns[..6]
    ensures Matched(files, AppPatterns) <= Matched(files, GithubWatcher.GithubPatterns)
    ensures Rank(LevelFor(|Matched(files, AppPatterns)|)) <= Rank(LevelFor(|Matched(files, GithubWatcher.GithubPatterns)|))
  {
    var g := GithubWatcher.GithubPatterns;
    assert AppPatterns == g[..6];
    forall d | d in Matched(files, AppPatterns)
      ensures d in Matched(files, g)
    {
      var i, j :| 0 <= i < |files| && 0 <= j < |AppPatterns| && Contains(Lower(files[i]), AppPatterns[j].0) && AppPatterns[j].1 == d;
      assert g[j] == AppPatterns[j];
    }
    SubsetCard(Matched(files, AppPatterns), Matched(files, g));
  }

  /** `github_summarize_pr`: the first pull request with the number, rated by the six patterns. */
  method SummarizePr(prs: seq<PullRequest>, number: int) returns (r: Lookup<GithubWatcher.PrSummary>)
    ensures r.NotFound? <==> forall i :: 0 <= i < |prs| ==> prs[i].number != number
    ensures r.Found? ==>
      Found(r.value.pr) == FindPr(prs, number) &&
      Assesses(r.value.risk, r.value.pr.filesChanged, AppPatterns)
  {
    var found := FindPr(prs, number);
    if found.NotFound? {
      return NotFound;
    }
    var risk := AnalyzePrRisk(found.value.filesChanged);
    r := Found(GithubWatcher.PrSummary(found.value, risk));
  }

  // ---------------------------------------------------------------------------
  // Incident analysis: timeout, corruption, memory, else escalate
  // ---------------------------------------------------------------------------

  /** The branch `ops_analyze_incident` takes: the agent's playbooks minus the cache one. */
  function AppPlaybook(incident: Incident): (p: OpsAgent.Playbook)
    ensures p != OpsAgent.CachePlaybook
    ensures p == OpsAgent.EscalatePlaybook <==>
      var s := Lower(incident.symptoms);
      !Contains(s, "timeout") && !Contains(s, "corruption") && !Contains(s, "memory")
  {
    var s := Lower(incident.symptoms);
    if Contains(s, "timeout") then OpsAgent.TimeoutPlaybook
    else if Contains(s, "corruption") then OpsAgent.CorruptionPlaybook
    else if Contains(s, "memory") then OpsAgent.MemoryPlaybook
    else OpsAgent.EscalatePlaybook
  }

  /**
   * `ops_analyze_incident`: an unknown id gives `NotFound`; a known one gets
   * the root cause and the actions of its branch, with no severity alert.
   */
  function AnalyzeIncident(table: IncidentTable, id: string): (r: Lookup<OpsAgent.IncidentAnalysis>)
    ensures r.NotFound? <==> forall i :: 0 <= i < |table| ==> table[i].0 != id
    ensures forall i :: 0 <= i < |table| && table[i].0 == id ==>
      r.Found? && r.value.id == id && r.value.incident == table[i].1 &&
      r.value.rootCause == OpsAgent.CauseOf(AppPlaybook(table[i].1)) &&
      r.value.actions == OpsAgent.PlaybookActions(AppPlaybook(table[i].1))
    ensures r.Found? ==> |r.value.actions| == 1 || |r.value.actions| == 3
  {
    var found := GetIncident(table, id);
    if found.NotFound? then NotFound
    else
      var p := AppPlaybook(found.value);
      Found(OpsAgent.IncidentAnalysis(id, found.value, OpsAgent.CauseOf(p), OpsAgent.PlaybookActions(p)))
  }

  /**
   * The web interface and the agent take the same branch except where the
   * agent's cache branch applies, which the web interface escalates.
   */
  lemma PlaybookAgreesWithAgent(incident: Incident)
    ensures OpsAgent.PlaybookFor(incident) != OpsAgent.CachePlaybook ==> AppPlaybook(incident) == OpsAgent.PlaybookFor(incident)
    ensures OpsAgent.PlaybookFor(incident) == OpsAgent.CachePlaybook ==> AppPlaybook(incident) == OpsAgent.EscalatePlaybook
  {
  }

  /**
   * The two root causes agree exactly when the agent's cause is not the cache
   * one and the symptoms are not a bare "checksum" (which the agent reads as
   * disk failure).
   */
  lemma RootCauseAgreesWithAgent(incident: Incident)
    ensures var s := Lower(incident.symptoms);
      OpsAgent.CauseOf(AppPlaybook(incident)) == OpsAgent.DetermineRootCause(incident) <==>
        OpsAgent.DetermineRootCause(incident) != OpsAgent.CacheMisconfiguration &&
        !(Contains(s, "checksum") && !Contains(s, "timeout") && !Contains(s, "corruption"))
  {
  }

  // ---------------------------------------------------------------------------
  // Remediation gate: the deny rules are tested before the allow rules
  // ---------------------------------------------------------------------------

  datatype AppBlockReason = DestructiveDatabaseOperation | DataDeletion

  datatype AppSuccess = Restarted | ConfigurationUpdated

  datatype AppOutcome = AppBlocked(reason: AppBlockReason) | Succeeded(success: AppSuccess) | Manual

  /**
   * `ops_execute_action`: blocked exactly when a deny rule matches; otherwise
   * "restart" or "increase" alone succeeds, and anything else is manual.
   */
  function ExecuteAction(action: string): (r: AppOutcome)
    ensures r.AppBlocked? <==> Denied(Lower(action))
    ensures r == AppBlocked(DestructiveDatabaseOperation) <==> DestructiveDelete(Lower(action))
    ensures r.Succeeded? <==> !Denied(Lower(action)) && (Contains(Lower(action), "restart") || Contains(Lower(action), "increase"))
    ensures r.Manual? <==> !Denied(Lower(action)) && !Contains(Lower(action), "restart") && !Contains(Lower(action), "increase")
  {
    var a := Lower(action);
    if Contains(a, "delete") && (Contains(a, "prod") || Contains(a, "database")) then AppBlocked(DestructiveDatabaseOperation)
    else if Contains(a, "drop") || Contains(a, "truncate") then AppBlocked(DataDeletion)
    else if Contains(a, "restart") then Succeeded(Restarted)
    else if Contains(a, "increase") then Succeeded(ConfigurationUpdated)
    else Manual
  }

  /** "drop" or "truncate" is blocked whatever else the action says. */
  lemma DropOrTruncateAlwaysBlocked(action: string)
    requires Contains(Lower(action), "drop") || Contains(Lower(action), "truncate")
    ensures ExecuteAction(action).AppBlocked?
  {
  }

  /**
   * Every action the agent blocks is blocked here too; the web interface
   * blocks more, namely the denied actions an allow rule lets through in the
   * agent.
   */
  lemma AppBlocksWhatAgentBlocks(action: string)
    ensures OpsAgent.ExecuteRemediation(action).Blocked? ==> ExecuteAction(action).AppBlocked?
    ensures ExecuteAction(action).AppBlocked? && !OpsAgent.ExecuteRemediation(action).Blocked? <==>
      Denied(Lower(action)) && OpsAgent.Allowed(Lower(action))
  {
  }

  /** The gate ignores case. */
  lemma ExecuteActionIgnoresCase(action: string)
    ensures ExecuteAction(Upper(action)) == ExecuteAction(action)
  {
    LowerOfUpper(action);
  }

  // ---------------------------------------------------------------------------
  // Cost figures fixed at construction
  // ---------------------------------------------------------------------------

  datatype Usage = Usage(
    totalTokens: int,
    totalCost: real,
    budgetLimit: real,
    remaining: real,
    percentage: real,
    alert: bool,
    usageByModel: map<string, CostSentinel.ModelUsage>)

  /** `get_usage`'s tracker: the demo ledger written out, never changed afterwards. */
  class CostTracker {
    const usageByModel: map<string, CostSentinel.ModelUsage> := CostSentinel.DemoUsage
    const totalTokens: int := 28000
    const totalCost: real := 0.4587
    const budgetLimit: real := 100.0

    constructor()
    {
    }

    /** `get_usage`: neither the remaining budget nor the percentage is clamped; the alert is above 80%. */
    function GetUsage(): (r: Usage)
      ensures r.totalTokens == totalTokens && r.totalCost == totalCost && r.budgetLimit == budgetLimit
      ensures r.usageByModel == usageByModel
      ensures r.remaining + r.totalCost == r.budgetLimit
      ensures r.percentage * r.budgetLimit == r.totalCost * 100.0
      ensures r.alert <==> r.percentage > 80.0
    {
      var remaining := budgetLimit - totalCost;
      var percentage := totalCost / budgetLimit * 100.0;
      Usage(totalTokens, totalCost, budgetLimit, remaining, percentage, percentage > 80.0, usageByModel)
    }
  }

  /**
   * The fixed figures are the ones the agent's tracker reaches after its demo
   * usage: the same ledger, whose entries sum to the fixed totals, under the
   * same budget.
   */
  lemma TrackerMatchesAgent(t: CostTracker)
    ensures t.usageByModel == CostSentinel.DemoUsage
    ensures CostSentinel.Ledger(["gpt-4", "gpt-3.5-turbo", "gpt-4o-mini"], t.usageByModel,
      CostSentinel.ModelUsage(t.totalTokens, t.totalCost))
    ensures t.budgetLimit == CostSentinel.BudgetLimit
  {
    CostSentinel.DemoTotals();
  }

  /**
   * The web interface shows the same alert as the agent's budget status for
   * the same spending, and the same remaining budget while it is not
   * overspent.
   */
  lemma UsageAgreesWithAgent(t: CostTracker, s: CostSentinel.CostTracker)
    requires s.totalCost == t.totalCost
    ensures t.GetUsage().alert == s.GetBudgetStatus().alert
    ensures t.GetUsage().remaining == s.GetBudgetStatus().remaining
  {
  }

  // ---------------------------------------------------------------------------
  // Model recommendation against a fixed GPT-4 baseline
  // ---------------------------------------------------------------------------

  datatype ModelAdvice = ModelAdvice(
    model: string,
    currentCost: real,
    recommendedCost: real,
    savings: real,
    savingsPercentage: real)

  /** 10000 tokens at GPT-4's 0.03 per 1000. */
  const BaselineCost: real := 10000.0 * 0.03 / 1000.0

  /** The table entry for an exact complexity key; any other key gets the "medium" entry. */
  function RecommendationPrice(complexity: string): (string, real)
  {
    if complexity == "simple" then ("gpt-4o-mini", 0.00015)
    else if complexity == "complex" then ("gpt-4", 0.03)
    else ("gpt-3.5-turbo", 0.0015)
  }

  /**
   * `recommend_model`: the recommendation priced for 10000 tokens against the
   * fixed baseline; the percentage is of the baseline.
   */
  function RecommendModel(complexity: string): (r: ModelAdvice)
    ensures r.model == RecommendationPrice(complexity).0
    ensures r.currentCost == BaselineCost
    ensures r.recommendedCost == 10000.0 * RecommendationPrice(complexity).1 / 1000.0
    ensures r.savings == r.currentCost - r.recommendedCost
    ensures r.savingsPercentage * r.currentCost == r.savings * 100.0
  {
    var rec := RecommendationPrice(complexity);
    var currentCost := 10000.0 * 0.03 / 1000.0;
    var recommendedCost := 10000.0 * rec.1 / 1000.0;
    var savings := currentCost - recommendedCost;
    ModelAdvice(rec.0, currentCost, recommendedCost, savings,
      if currentCost > 0.0 then savings / currentCost * 100.0 else 0.0)
  }

  /** "complex" saves nothing; "simple" saves 99.5% and everything else 95%. */
  lemma RecommendationSavings(complexity: string)
    ensures complexity == "complex" ==> RecommendModel(complexity).savings == 0.0 && RecommendModel(complexity).savingsPercentage == 0.0
    ensures complexity == "simple" ==> RecommendModel(complexity).savingsPercentage == 99.5
    ensures complexity != "simple" && complexity != "complex" ==> RecommendModel(complexity).savingsPercentage == 95.0
    ensures complexity != "complex" ==> RecommendModel(complexity).savings > 0.0
  {
  }

  /**
   * The key is not lowercased: "SIMPLE" gets the medium advice, while the
   * agent's `recommend_model_switch` lowercases it and answers "simple".
   */
  lemma UpperCaseFallsBackToMedium()
    ensures RecommendModel("SIMPLE") == RecommendModel("medium")
    ensures CostSentinel.RecommendedModel(Lower("SIMPLE")) == "gpt-4o-mini"
  {
    assert Lower("SIMPLE") == "simple";
  }

  /**
   * On the lowercase keys both components recommend the same model, at the
   * agent's listed price.
   */
  lemma RecommendationAgreesWithAgent(complexity: string)
    ensures RecommendModel(complexity).model == CostSentinel.RecommendedModel(complexity)
    ensures RecommendationPrice(complexity).1 == CostSentinel.ModelPricing[RecommendModel(complexity).model]
  {
    CostSentinel.RecommendationIsPriced(complexity);
  }
}
