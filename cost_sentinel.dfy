/**
 * The cost sentinel agent: a ledger of token usage and cost per model, the
 * budget status derived from it, and the model-switch advice priced from it.
 * Money is exact (`real`); tokens are unbounded integers.
 */
module CostSentinel {
  import opened Text

  /** Tokens and cost accumulated for one model. */
  datatype ModelUsage = ModelUsage(tokens: int, cost: real)

  function Plus(a: ModelUsage, b: ModelUsage): ModelUsage
  {
    ModelUsage(a.tokens + b.tokens, a.cost + b.cost)
  }

  /** Price in dollars per 1000 input tokens. */
  const ModelPricing: map<string, real> := map[
    "gpt-4" := 0.03,
    "gpt-4-turbo" := 0.01,
    "gpt-3.5-turbo" := 0.0015,
    "gpt-4o" := 0.0025,
    "gpt-4o-mini" := 0.00015,
    "claude-3-opus" := 0.015,
    "claude-3-sonnet" := 0.003,
    "claude-3-haiku" := 0.00025]

  const BudgetLimit: real := 100.0

  /** `pricing.get(model, default)`. */
  function PriceOr(pricing: map<string, real>, model: string, default: real): real
  {
    if model in pricing then pricing[model] else default
  }

  /** The cost of `tokens` tokens at a price per 1000 tokens. */
  function UsageCost(tokens: int, pricePer1k: real): real
  {
    tokens as real * (pricePer1k / 1000.0)
  }

  /** The entry of `m`, zero when it has none. */
  function Entry(usage: map<string, ModelUsage>, m: string): ModelUsage
  {
    if m in usage then usage[m] else ModelUsage(0, 0.0)
  }

  /** The usage summed over `models`, in order. */
  function Total(models: seq<string>, usage: map<string, ModelUsage>): ModelUsage
    decreases |models|
  {
    if models == [] then ModelUsage(0, 0.0)
    else Plus(Total(models[..|models| - 1], usage), Entry(usage, models[|models| - 1]))
  }

  predicate Distinct(models: seq<string>)
  {
    forall i, j :: 0 <= i < j < |models| ==> models[i] != models[j]
  }

  /** Entries of models not listed do not contribute. */
  lemma {:induction false} TotalIgnoresOthers(models: seq<string>, usage: map<string, ModelUsage>, m: string, u: ModelUsage)
    requires m !in models
    ensures Total(models, usage[m := u]) == Total(models, usage)
    decreases |models|
  {
    if models != [] {
      TotalIgnoresOthers(models[..|models| - 1], usage, m, u);
    }
  }

  /** Replacing the entry of a listed model changes the total by the difference. */
  lemma {:induction false} TotalUpdate(models: seq<string>, usage: map<string, ModelUsage>, m: string, u: ModelUsage)
    requires Distinct(models) && m in models
    ensures Plus(Total(models, usage[m := u]), Entry(usage, m)) == Plus(Total(models, usage), u)
    decreases |models|
  {
    var init := models[..|models| - 1];
    var last := models[|models| - 1];
    var updated := usage[m := u];
    assert Total(models, updated) == Plus(Total(init, updated), Entry(updated, last));
    assert Total(models, usage) == Plus(Total(init, usage), Entry(usage, last));
    if last == m {
      assert m !in init;
      TotalIgnoresOthers(init, usage, m, u);
    } else {
      assert m in init;
      assert Entry(updated, last) == Entry(usage, last);
      TotalUpdate(init, usage, m, u);
    }
  }

  /** The key set of a ledger is the set of listed models. */
  ghost predicate Keys(models: seq<string>, usage: map<string, ModelUsage>)
  {
    (forall m :: m in usage <==> m in models) && Distinct(models)
  }

  /** Consistent ledger: keys listed once each, and `total` is their sum. */
  ghost predicate Ledger(models: seq<string>, usage: map<string, ModelUsage>, total: ModelUsage)
  {
    Keys(models, usage) && total == Total(models, usage)
  }

  /** The ledger after crediting `m`: its entry, opened at zero if missing, grows by `credit`. */
  function Credited(usage: map<string, ModelUsage>, m: string, credit: ModelUsage): map<string, ModelUsage>
  {
    usage[m := Plus(Entry(usage, m), credit)]
  }

  /** The key order after crediting `m`: a new model goes last. */
  function Listed(models: seq<string>, usage: map<string, ModelUsage>, m: string): seq<string>
  {
    if m in usage then models else models + [m]
  }

  /** Crediting a model keeps the key order consistent and adds the credit to the total. */
  lemma CreditLedger(models: seq<string>, usage: map<string, ModelUsage>, total: ModelUsage, m: string, credit: ModelUsage)
    requires Ledger(models, usage, total)
    ensures Ledger(Listed(models, usage, m), Credited(usage, m, credit), Plus(total, credit))
  {
    if m in usage {
      CreditListed(models, usage, total, m, credit);
    } else {
      CreditNew(models, usage, total, m, credit);
    }
  }

  lemma CreditListed(models: seq<string>, usage: map<string, ModelUsage>, total: ModelUsage, m: string, credit: ModelUsage)
    requires Ledger(models, usage, total) && m in usage
    ensures Ledger(models, Credited(usage, m, credit), Plus(total, credit))
  {
    TotalUpdate(models, usage, m, Plus(usage[m], credit));
  }

  lemma CreditNew(models: seq<string>, usage: map<string, ModelUsage>, total: ModelUsage, m: string, credit: ModelUsage)
    requires Ledger(models, usage, total) && m !in usage
    ensures Ledger(models + [m], Credited(usage, m, credit), Plus(total, credit))
  {
    var credited := Credited(usage, m, credit);
    TotalIgnoresOthers(models, usage, m, credited[m]);
    assert (models + [m])[..|models|] == models;
    assert Total(models + [m], credited) == Plus(Total(models, credited), credited[m]);
  }

  datatype BudgetStatus = BudgetStatus(spent: real, remaining: real, percentage: real, alert: bool, critical: bool)

  datatype Savings = Savings(fromCost: real, toCost: real, savings: real, percentage: real)

  class CostTracker {
    var totalTokens: int
    var totalCost: real
    /** Set by `__init__` and never reassigned. */
    const budgetLimit: real := BudgetLimit
    const modelPricing: map<string, real> := ModelPricing
    var usageByModel: map<string, ModelUsage>
    /** The models in the order they were first used: the dictionary's key order. */
    ghost var models: seq<string>

    /** The totals are the sums of the per-model entries, each model listed once in first-use order. */
    ghost predicate Valid()
      reads this
    {
      Ledger(models, usageByModel, ModelUsage(totalTokens, totalCost))
    }

    /** `__init__`: the empty ledger, then the demo usage. */
    constructor()
      ensures Valid()
      ensures totalTokens == 28000 && totalCost == 0.4587
      ensures usageByModel == DemoUsage && modelPricing == ModelPricing
    {
      totalTokens := 0;
      totalCost := 0.0;
      usageByModel := map[];
      models := [];
      new;
      PricesNonNegative();
      InitDemoData();
    }

    /** `_init_demo_data`: three usages, 28000 tokens costing 0.4587 in all. */
    method InitDemoData()
      requires Valid()
      modifies this
      ensures Valid()
      ensures totalTokens == old(totalTokens) + 28000 && totalCost == old(totalCost) + 0.4587
      ensures old(usageByModel) == map[] ==> usageByModel == DemoUsage
    {
      DemoCosts();
      AddUsage("gpt-4", 15000);
      AddUsage("gpt-3.5-turbo", 5000);
      AddUsage("gpt-4o-mini", 8000);
      DemoCredits();
    }

    /**
     * `add_usage`: the tokens and their cost are added to the totals and to
     * the model's entry, created at zero on first use; nothing else changes.
     */
    method AddUsage(model: string, tokens: int)
      requires Valid()
      modifies this
      ensures Valid()
      ensures totalTokens == old(totalTokens) + tokens
      ensures totalCost == old(totalCost) + UsageCost(tokens, PriceOr(modelPricing, model, 0.01))
      ensures usageByModel == Credited(old(usageByModel), model, ModelUsage(tokens, UsageCost(tokens, PriceOr(modelPricing, model, 0.01))))
      ensures models == Listed(old(models), old(usageByModel), model)
      ensures tokens >= 0 ==> totalTokens >= old(totalTokens) && totalCost >= old(totalCost)
    {
      var price := PriceOr(modelPricing, model, 0.01);
      var cost := UsageCost(tokens, price);
      if tokens >= 0 {
        PricesNonNegative();
        PriceNonNegative(modelPricing, model, 0.01);
        CostNonNegative(tokens, price);
      }
      var credit := ModelUsage(tokens, cost);
      CreditLedger(models, usageByModel, ModelUsage(totalTokens, totalCost), model, credit);
      totalTokens := totalTokens + tokens;
      totalCost := totalCost + cost;
      if model in usageByModel {
        usageByModel := usageByModel[model := Plus(usageByModel[model], credit)];
      } else {
        usageByModel := usageByModel[model := Plus(ModelUsage(0, 0.0), credit)];
        models := models + [model];
      }
    }

    /** The share of the budget spent, in percent, before any clamping. */
    function Percentage(): real
      reads this
      requires budgetLimit != 0.0
    {
      totalCost / budgetLimit * 100.0
    }

    /**
     * `get_budget_status`: remaining and percentage are clamped for display,
     * while alert and critical are decided on the unclamped percentage.
     */
    function GetBudgetStatus(): (r: BudgetStatus)
      reads this
      requires budgetLimit != 0.0
      ensures r.spent == totalCost
      ensures r.remaining >= 0.0 && r.remaining >= budgetLimit - totalCost
      ensures r.remaining == 0.0 || r.remaining == budgetLimit - totalCost
      ensures r.percentage <= 100.0 && r.percentage <= Percentage()
      ensures r.percentage == 100.0 || r.percentage == Percentage()
      ensures r.alert <==> Percentage() > 80.0
      ensures r.critical <==> Percentage() > 95.0
      ensures r.critical ==> r.alert
    {
      var remaining := budgetLimit - totalCost;
      var percentage := totalCost / budgetLimit * 100.0;
      BudgetStatus(
        totalCost,
        if 0.0 >= remaining then 0.0 else remaining,
        if 100.0 <= percentage then 100.0 else percentage,
        percentage > 80.0,
        percentage > 95.0)
    }

    /**
     * `calculate_savings`: an unknown source model is priced at 0.01, an
     * unknown target at 0.001; the percentage is of the source cost, 0 when
     * that cost is not positive.
     */
    function CalculateSavings(fromModel: string, toModel: string, tokens: int): (r: Savings)
      reads this
      ensures r.fromCost == UsageCost(tokens, PriceOr(modelPricing, fromModel, 0.01))
      ensures r.toCost == UsageCost(tokens, PriceOr(modelPricing, toModel, 0.001))
      ensures r.savings == r.fromCost - r.toCost
      ensures r.fromCost > 0.0 ==> r.percentage == r.savings / r.fromCost * 100.0
      ensures r.fromCost <= 0.0 ==> r.percentage == 0.0
    {
      var fromCost := UsageCost(tokens, PriceOr(modelPricing, fromModel, 0.01));
      var toCost := UsageCost(tokens, PriceOr(modelPricing, toModel, 0.001));
      var savings := fromCost - toCost;
      Savings(fromCost, toCost, savings, if fromCost > 0.0 then savings / fromCost * 100.0 else 0.0)
    }
  }

  /** A non-negative number of tokens at a non-negative price costs something non-negative. */
  lemma CostNonNegative(tokens: int, price: real)
    requires tokens >= 0 && price >= 0.0
    ensures UsageCost(tokens, price) >= 0.0
  {
    assert price / 1000.0 >= 0.0;
  }

  lemma PriceNonNegative(pricing: map<string, real>, model: string, default: real)
    requires forall m :: m in pricing ==> pricing[m] >= 0.0
    requires default >= 0.0
    ensures PriceOr(pricing, model, default) >= 0.0
  {
  }

  lemma PricesNonNegative()
    ensures forall m :: m in ModelPricing ==> ModelPricing[m] >= 0.0
  {
  }

  /** The ledger `_init_demo_data` leaves behind. */
  const DemoUsage: map<string, ModelUsage> := map[
    "gpt-4" := ModelUsage(15000, 0.45),
    "gpt-3.5-turbo" := ModelUsage(5000, 0.0075),
    "gpt-4o-mini" := ModelUsage(8000, 0.0012)]

  /** What the three demo usages cost at the listed prices. */
  lemma DemoCosts()
    ensures UsageCost(15000, PriceOr(ModelPricing, "gpt-4", 0.01)) == 0.45
    ensures UsageCost(5000, PriceOr(ModelPricing, "gpt-3.5-turbo", 0.01)) == 0.0075
    ensures UsageCost(8000, PriceOr(ModelPricing, "gpt-4o-mini", 0.01)) == 0.0012
  {
  }

  /** Crediting the three demo usages to an empty ledger gives the demo ledger. */
  lemma DemoCredits()
    ensures Credited(Credited(Credited(map[], "gpt-4", ModelUsage(15000, 0.45)),
      "gpt-3.5-turbo", ModelUsage(5000, 0.0075)), "gpt-4o-mini", ModelUsage(8000, 0.0012)) == DemoUsage
  {
  }

  /** The demo entries add up to the demo totals. */
  lemma DemoTotals()
    ensures Total(["gpt-4", "gpt-3.5-turbo", "gpt-4o-mini"], DemoUsage) == ModelUsage(28000, 0.4587)
  {
    var three := ["gpt-4", "gpt-3.5-turbo", "gpt-4o-mini"];
    var two := three[..2];
    var one := two[..1];
    assert one[..0] == [];
    assert Entry(DemoUsage, one[0]) == ModelUsage(15000, 0.45);
    assert Total(one, DemoUsage) == ModelUsage(15000, 0.45);
    assert Entry(DemoUsage, two[1]) == ModelUsage(5000, 0.0075);
    assert Total(two, DemoUsage) == ModelUsage(20000, 0.4575);
    assert Entry(DemoUsage, three[2]) == ModelUsage(8000, 0.0012);
  }

  datatype BudgetAlert = Critical | Warning | Healthy

  /** `check_budget_status`: critical is tested first, then the alert, else healthy. */
  function CheckBudgetStatus(tracker: CostTracker): (r: BudgetAlert)
    reads tracker
    requires tracker.budgetLimit != 0.0
    ensures r == Critical <==> tracker.Percentage() > 95.0
    ensures r == Warning <==> 80.0 < tracker.Percentage() <= 95.0
    ensures r == Healthy <==> tracker.Percentage() <= 80.0
  {
    var status := tracker.GetBudgetStatus();
    if status.critical then Critical
    else if status.alert then Warning
    else Healthy
  }

  /** Spending past the budget shows 100% and nothing remaining, yet still raises the critical alert. */
  lemma OverspendStaysCritical(tracker: CostTracker)
    requires tracker.budgetLimit > 0.0 && tracker.totalCost > tracker.budgetLimit
    ensures tracker.GetBudgetStatus().percentage == 100.0
    ensures tracker.GetBudgetStatus().remaining == 0.0
    ensures tracker.GetBudgetStatus().critical
    ensures CheckBudgetStatus(tracker) == Critical
  {
    assert tracker.Percentage() > 100.0 by {
      assert tracker.totalCost / tracker.budgetLimit > 1.0;
    }
  }

  /** The token count every recommendation is priced for. */
  const SampleTokens := 10000

  /** The model the recommendation table gives for a (lowercased) complexity; "medium" is the fallback. */
  function RecommendedModel(complexity: string): string
  {
    if complexity == "simple" then "gpt-4o-mini"
    else if complexity == "complex" then "gpt-4"
    else "gpt-3.5-turbo"
  }

  datatype ModelSwitch = ModelSwitch(model: string, savings: Savings, alreadyOptimal: bool)

  /**
   * `recommend_model_switch`: the complexity is lowercased and looked up,
   * the switch is priced for 10000 tokens, and it is "already optimal"
   * exactly when the recommendation is the current model.
   */
  function RecommendModelSwitch(tracker: CostTracker, queryComplexity: string, currentModel: string): (r: ModelSwitch)
    reads tracker
    ensures r.model == RecommendedModel(Lower(queryComplexity))
    ensures r.savings == tracker.CalculateSavings(currentModel, r.model, SampleTokens)
    ensures r.alreadyOptimal <==> r.model == currentModel
  {
    var complexity := Lower(queryComplexity);
    var model := RecommendedModel(complexity);
    ModelSwitch(model, tracker.CalculateSavings(currentModel, model, SampleTokens), model == currentModel)
  }

  /** The advice ignores the case of the complexity. */
  lemma RecommendIgnoresCase(tracker: CostTracker, queryComplexity: string, currentModel: string)
    ensures RecommendModelSwitch(tracker, Upper(queryComplexity), currentModel) ==
            RecommendModelSwitch(tracker, queryComplexity, currentModel)
  {
    LowerOfUpper(queryComplexity);
  }

  /** Every recommended model has a listed price, so the 0.001 fallback never prices a recommendation. */
  lemma RecommendationIsPriced(complexity: string)
    ensures RecommendedModel(complexity) in ModelPricing
  {
  }

  /**
   * The two fallbacks differ: "switching" an unlisted model to itself is
   * reported as a 90% saving, while a listed model saves nothing.
   */
  lemma SelfSwitchSavings(tracker: CostTracker, model: string, tokens: int)
    requires tokens > 0
    ensures model in tracker.modelPricing && tracker.modelPricing[model] > 0.0 ==>
      tracker.CalculateSavings(model, model, tokens).savings == 0.0 &&
      tracker.CalculateSavings(model, model, tokens).percentage == 0.0
    ensures model !in tracker.modelPricing ==> tracker.CalculateSavings(model, model, tokens).percentage == 90.0
  {
    var r := tracker.CalculateSavings(model, model, tokens);
    var t := tokens as real;
    if model !in tracker.modelPricing {
      assert r.fromCost == t * 0.00001 > 0.0;
      assert r.savings == 0.9 * r.fromCost;
      assert r.savings / r.fromCost == 0.9;
    }
  }
}
