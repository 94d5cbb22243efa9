# 2fast2mcp decision logic in Dafny

2fast2mcp is a set of three MCP agents plus a Flask web interface (`app.py`):

- a **GitHub watcher** that rates pull requests by the files they touch, recommends reviews, and shows issues and recent activity;
- an **ops agent** that diagnoses incidents, suggests remediation steps, lists incidents and runs remediation actions behind a guardrail;
- a **cost sentinel** that keeps a ledger of token usage and cost per model, reports the budget status and advises cheaper models.

The web interface has its own copy of most of this logic, and the copies differ. This project models each agent's decision logic and the web interface's version, and proves what each one promises and where they disagree. The agents are the core of that logic. The modules are:

- `Text`: Python's `str.lower`/`str.upper` on ASCII letters and the substring test `in`.
- `Lists`: slicing `s[:n]` (negative `n` included), the ordering of strings, and `list.sort(key=..., reverse=True)`, which is modelled as a stable insertion sort. The sort is proved ordered, a permutation and stable.
- `Records`: pull requests, issues and incidents, the lookup of the first pull request with a given number (`next(...)`), and the lookup of an incident by id (`dict.get`).
- `Guardrails`: the deny phrases both remediation gates test.
- `RiskScan`: the file-risk classifier both services run with different pattern tables. It is a nested loop, proved against a set-comprehension specification.
- `OpsAgent`, `GithubWatcher`, `CostSentinel`: the three agents.
- `App`: the web interface's versions, each related to the agent's version.
- `Scenarios`: concrete actions and the verdict each gate gives them.

The cost sentinel's `CostTracker` is a class whose `add_usage` updates its fields in place. Its invariant is that the totals equal the sums of the per-model entries, with each model listed once in first-use order. The web interface's `CostTracker` only sets its fields once, so its fields are constants.

## Model

| member | source | states |
|---|---|---|
| Lists.Prefix | agents/ops_agent/server.py:212 | `s[:n]`: the first `min(n, len(s))` elements for `n >= 0`, all but the last `-n` for negative `n`, always a prefix of `s` |
| Lists.SortNewestFirstOrdered | agents/ops_agent/server.py:211 | the result of the descending sort by key is ordered newest first |
| Lists.SortNewestFirstStable | agents/github_watcher/server.py:246 | the sort is stable: for every key, the elements with that key keep their input order |
| Lists.PrefixOfOrdered | agents/ops_agent/server.py:211-212 | a slice of a list sorted newest first stays sorted, and no element left out is newer than one kept |
| Lists.StableSortIsUnique | agents/ops_agent/server.py:211 | any list ordered newest first that keeps, for every key, the input order of the elements with that key is the modelled sort's result, so every stable descending sort agrees with it |
| Records.FindPr | agents/github_watcher/server.py:75 | not found exactly when no pull request has the number; otherwise the first pull request with that number |
| Records.GetIncident | agents/ops_agent/server.py:98-100 | not found exactly when no entry has the id; otherwise the incident stored under that id |
| RiskScan.Classify | agents/github_watcher/server.py:46-60 | the nested loop yields the tier of the number of distinct matched descriptions (more than 3 HIGH, 1 to 3 MEDIUM, 0 LOW). MEDIUM names all of them; HIGH names the distinct ones among the first three detections, one to three of them |
| RiskScan.DetectionsSpec | agents/github_watcher/server.py:46-51 | a description is collected exactly when its pattern occurs in some lowercased filename |
| RiskScan.AssessmentDetermined | agents/github_watcher/server.py:53-60 | the assessment is a function of the files and the table: any two assessments that meet the specification are equal |
| RiskScan.LowIffNoMatch | agents/github_watcher/server.py:47-60 | LOW exactly when no pattern occurs in any lowercased filename; no files gives LOW |
| RiskScan.MatchedDependsOnFileSet | agents/github_watcher/server.py:46-53 | the matched descriptions, and so the tier, do not change when filenames are reordered or duplicated |
| RiskScan.MatchedMonotone | agents/github_watcher/server.py:46-53 | adding files never removes a matched description and never lowers the tier |
| RiskScan.MatchedWithinTable | agents/github_watcher/server.py:35-53 | every matched description is one the table lists, so there are no more of them than distinct descriptions |
| RiskScan.FirstAreas | agents/github_watcher/server.py:56 | the HIGH message names one to three distinct descriptions, all of them detected |
| GithubWatcher.AnalyzeRisk | agents/github_watcher/server.py:28-60 | `analyze_risk` meets the classifier specification over the eight-pattern table |
| GithubWatcher.GithubDescriptions | agents/github_watcher/server.py:35-44 | the table's descriptions are exactly seven, with ".yaml" and ".yml" sharing "Config files" |
| GithubWatcher.DistinctDescriptions | agents/github_watcher/server.py:35-44 | the seven descriptions are pairwise distinct, so "Config files" differs from "Configuration files" |
| GithubWatcher.SummarizePr | agents/github_watcher/server.py:75-80 | not found exactly when no pull request has the number; otherwise the first such pull request with its risk assessment |
| GithubWatcher.EmissionOrderStrict | agents/github_watcher/server.py:156-171 | in a list built in the rules' order, a later recommendation always comes from a later rule |
| GithubWatcher.AppendIf | agents/github_watcher/server.py:156-169 | one rule: appends `r` exactly when its test holds, keeping the emission order |
| GithubWatcher.Emit | agents/github_watcher/server.py:156-171 | the appends and the `if not recommendations` fallback, given which tests hold, satisfy the emission rules (`RulesHold`) |
| GithubWatcher.Recommend | agents/github_watcher/server.py:156-171 | each of the auth, database/migration and config reviews is emitted exactly when its test holds. The large-changeset note is emitted exactly when additions + deletions > 500. The default note is emitted exactly when none of them is. The list follows the rules' order and has 1 to 4 entries |
| GithubWatcher.AnalyzeCodeDiff | agents/github_watcher/server.py:137-171 | not found exactly when no pull request has the number; otherwise the risk assessment and the recommendations of the first such pull request |
| GithubWatcher.UpperCaseYamlMissesReview | agents/github_watcher/server.py:164 | "PROD.YAML" is rated a config file, but gets no configuration review, because the ".yaml" test is on the name as written |
| GithubWatcher.RecentIssues | agents/github_watcher/server.py:114-115 | the issues shown are a prefix of the issue list of length `limit` (capped, negative limits as in Python), and the total is the full count |
| GithubWatcher.TimelineSources | agents/github_watcher/server.py:227-243 | every event before the sort is one of the first three pull requests or the first three issues |
| GithubWatcher.CollectEvents | agents/github_watcher/server.py:225-243 | the two loops build the first three pull requests' events followed by the first three issues' events |
| GithubWatcher.RecentActivity | agents/github_watcher/server.py:225-250 | the result shows `min(5, events)` events: the stably sorted timeline cut to five. It is newest first, nothing left out is newer than anything shown, and every event comes from the first three pull requests or issues |
| OpsAgent.SuggestActions | agents/ops_agent/server.py:45-83 | the actions are the playbook branch's list plus the alert exactly when the severity is "HIGH" or "CRITICAL"; there are 1 to 4 of them |
| OpsAgent.RootCauseMatchesPlaybook | agents/ops_agent/server.py:29-42 | the root cause agrees with the playbook branch except exactly when "checksum" occurs without "timeout" or "corruption" |
| OpsAgent.ChecksumMismatch | agents/ops_agent/server.py:35 | "checksum" without "corruption" or "timeout" gives the disk-failure cause but not the corruption playbook |
| OpsAgent.RootCauseIgnoresCase | agents/ops_agent/server.py:31 | uppercasing the symptoms changes neither the root cause nor the playbook |
| OpsAgent.AnalyzeIncident | agents/ops_agent/server.py:98-115 | not found exactly when the id is missing; otherwise the incident with its root cause and suggested actions |
| OpsAgent.ExecuteRemediation | agents/ops_agent/server.py:156-185 | executed exactly when an allow rule matches the lowercased action. Blocked exactly when a deny rule matches and no allow rule does. Manual in every other case |
| OpsAgent.CheckOrVerifyNeverBlocked | agents/ops_agent/server.py:171-182 | an action containing "check" or "verify" is executed, whatever deny phrase it holds |
| OpsAgent.DestructiveDeleteBlockedIff | agents/ops_agent/server.py:159-176 | a "delete" + "prod"/"database" action is blocked as a destructive database operation exactly when no allow rule matches |
| OpsAgent.RestartNeedsService | agents/ops_agent/server.py:159-160 | the service-restart verdict is given exactly when the action contains both "restart" and "service" |
| OpsAgent.IncreaseNeedsPoolOrLimit | agents/ops_agent/server.py:162-163 | the configuration verdict requires "increase" together with "pool" or "limit" |
| OpsAgent.RemediationIgnoresCase | agents/ops_agent/server.py:156 | uppercasing the action does not change the verdict |
| OpsAgent.Matching | agents/ops_agent/server.py:202-208 | the filtered incidents are exactly the table's entries with the requested status (all of them for "all") |
| OpsAgent.FilterIncidents | agents/ops_agent/server.py:202-208 | the loop keeps exactly `Matching(table, status)` |
| OpsAgent.ListIncidents | agents/ops_agent/server.py:201-212 | the listing is the filtered incidents sorted newest first and cut as `[:limit]`: at most `limit` of them when `limit >= 0`, all but the last `-limit` when it is negative. Each has the requested status, they are ordered newest first, and none newer is left out |
| OpsAgent.ListAllIsSortedTable | agents/ops_agent/server.py:204-212 | listing "all" with a limit covering the table returns the whole table sorted newest first |
| CostSentinel.TotalIgnoresOthers | agents/cost_sentinel/server.py:60-64 | changing the entry of an unlisted model leaves the sum over the listed models unchanged |
| CostSentinel.TotalUpdate | agents/cost_sentinel/server.py:60-64 | replacing one listed model's entry changes the sum by exactly the difference |
| CostSentinel.CreditLedger | agents/cost_sentinel/server.py:57-64 | crediting one model (opening a zero entry on first use) keeps the totals equal to the per-model sums |
| CostSentinel.CostTracker.constructor | agents/cost_sentinel/server.py:23-44 | the new tracker holds the demo ledger, 28000 tokens costing 0.4587, and its totals are the per-model sums |
| CostSentinel.CostTracker.InitDemoData | agents/cost_sentinel/server.py:46-50 | the three demo usages add 28000 tokens and 0.4587 dollars; from an empty ledger they give the demo entries |
| CostSentinel.CostTracker.AddUsage | agents/cost_sentinel/server.py:52-64 | adds exactly `tokens` and `tokens * price / 1000` (unknown model priced 0.01) to the totals, credits only that model's entry (opening it at zero), keeps the ledger invariant, and for non-negative tokens never lowers either total |
| CostSentinel.CostTracker.GetBudgetStatus | agents/cost_sentinel/server.py:66-77 | the remaining budget is clamped at 0 and the percentage at 100; alert (> 80) and critical (> 95) use the unclamped percentage; critical implies alert |
| CostSentinel.CostTracker.CalculateSavings | agents/cost_sentinel/server.py:79-94 | the two costs use defaults 0.01 and 0.001; savings is their difference, and the percentage is 0 when the from-cost is not positive |
| CostSentinel.DemoTotals | agents/cost_sentinel/server.py:46-50 | the demo entries sum to 28000 tokens and 0.4587 dollars |
| CostSentinel.CheckBudgetStatus | agents/cost_sentinel/server.py:143-182 | critical above 95%, otherwise warning above 80%, otherwise healthy |
| CostSentinel.OverspendStaysCritical | agents/cost_sentinel/server.py:66-77 | once spending exceeds the budget, the status shows 100%, 0 remaining and critical |
| CostSentinel.RecommendModelSwitch | agents/cost_sentinel/server.py:196-241 | the lowercased complexity chooses the model ("medium" for unknown values). Savings are priced for 10000 tokens, and the advice is "already optimal" exactly when the model is the current one |
| CostSentinel.RecommendIgnoresCase | agents/cost_sentinel/server.py:196 | the advice does not depend on the complexity's case |
| CostSentinel.RecommendationIsPriced | agents/cost_sentinel/server.py:198-216 | every recommended model has a price in the tracker's table |
| CostSentinel.SelfSwitchSavings | agents/cost_sentinel/server.py:79-94 | switching a priced model to itself saves nothing; an unpriced one "saves" 90%, because the two defaults differ |
| App.AnalyzePrRisk | app.py:28-53 | `analyze_pr_risk` meets the classifier specification over the six-pattern table |
| App.AppDescriptions | app.py:30-37 | the six patterns report exactly the six named areas, without "Config files" |
| App.AppHighNeedsFour | app.py:45-53 | HIGH exactly when at least four of the six descriptions match |
| App.AppTierAtMostWatcher | app.py:30-37 | the six patterns are the watcher's first six, so the web interface never rates a change higher than the watcher |
| App.SummarizePr | app.py:55-76 | an error exactly when no pull request has the number; otherwise the first such one with its six-pattern assessment |
| App.AppPlaybook | app.py:93-121 | never the cache branch; escalation exactly when none of "timeout", "corruption", "memory" occurs |
| App.AnalyzeIncident | app.py:88-133 | an error exactly when the id is missing; otherwise the branch's root cause and its 1 or 3 actions, with no severity alert |
| App.PlaybookAgreesWithAgent | app.py:93-121 | the branch agrees with the agent's playbook, except that the agent's cache case escalates here |
| App.RootCauseAgreesWithAgent | app.py:93-121 | the root cause agrees with the agent's exactly when the agent's is not the cache cause and the symptoms are not a bare "checksum" |
| App.ExecuteAction | app.py:136-171 | blocked exactly when a deny phrase matches (a destructive database operation exactly for "delete" + "prod"/"database"). Otherwise success exactly for "restart" or "increase", and manual for anything else |
| App.DropOrTruncateAlwaysBlocked | app.py:146-151 | any action containing "drop" or "truncate" is blocked |
| App.AppBlocksWhatAgentBlocks | app.py:136-151 | whatever the agent's gate blocks, this gate blocks. It blocks more exactly when a deny phrase and an agent allow rule both match |
| App.ExecuteActionIgnoresCase | app.py:137 | uppercasing the action does not change the outcome |
| App.CostTracker.GetUsage | app.py:188-200 | reports the fixed figures, with an unclamped remaining budget (remaining + cost = limit), the percentage of the limit, and an alert above 80% |
| App.TrackerMatchesAgent | app.py:177-186 | the fixed entries are the agent's demo ledger, and they sum to the fixed totals under the same budget |
| App.UsageAgreesWithAgent | app.py:188-200 | for the same spending the alert matches the agent's budget status; the remaining budget also matches, since the fixed spending is under budget |
| App.RecommendModel | app.py:202-234 | the exact complexity key chooses the model and price ("medium" otherwise). Costs are for 10000 tokens against the fixed GPT-4 baseline; savings is the difference, and the percentage is its share of the baseline |
| App.RecommendationSavings | app.py:221-225 | "complex" saves nothing, "simple" saves 99.5%, and any other key 95%; everything but "complex" saves a positive amount |
| App.UpperCaseFallsBackToMedium | app.py:221 | "SIMPLE" is not lowercased and gets the "medium" advice, while the agent's lowercasing gives gpt-4o-mini |
| App.RecommendationAgreesWithAgent | app.py:203-221 | the web interface recommends the same model as the agent for an exact key, at the agent's price for it |
| Scenarios.DeleteProductionBlockedByBoth | agents/ops_agent/server.py:175-176 | "Delete production database" is blocked as a destructive database operation by both gates |
| Scenarios.RestartApiExecutedByBoth | agents/ops_agent/server.py:159-160 | "Restart API service" is executed by the agent and succeeds in the web interface |
| Scenarios.CheckAndDropSplitsTheGates | app.py:146-151 | "Check and drop table" is executed by the agent (its "check" rule comes first) but blocked by the web interface as data deletion |

## Left out

- Case mapping: `str.lower` and `str.upper` are modelled on ASCII letters only; other characters are unchanged.
- Report text: emoji, f-string templates, number formatting and the `created_at[:10]` display slices are presentation only. The result datatypes keep the decision each message carries: tier and areas, verdict kind, root cause, action list, and budget figures.
- The order in which a Python `set` joins the descriptions of a risk message is unspecified; the model keeps the set of descriptions.
- JSON loading (`load_data`, `load_incidents`, `load_github_data`): pull requests, issues and incidents are parameters. The incident dictionary is a sequence of `(id, incident)` pairs in insertion order with distinct ids.
- `if not pr` / `if not incident` would also reject an empty record; records here always have fields, so only the missing case is modelled.
- MCP tool registration and dispatch (`list_tools`, `call_tool`, `main`) and the Flask routes are transport glue and not modelled. `asyncio` is not modelled either.
- The global tracker is a parameter of `CheckBudgetStatus` and `RecommendModelSwitch`. `simulate_usage` is one call of `AddUsage` and has no member of its own. `get_token_usage` and `get_repo_stats` only format reports and are not modelled.
- Floating point: prices, costs and percentages are exact `real` numbers. The model does not capture IEEE rounding; for example, the demo totals are exactly 0.4587 here.
- Python's Timsort is modelled by a stable insertion sort. `Lists.StableSortIsUnique` shows that every stable descending sort gives the same result; the comparisons Timsort performs are not modelled.
- Default arguments: `list_incidents(status="open", limit=5)`, `list_recent_issues(limit=5)`, `recommend_model_switch(query_complexity="medium", current_model="gpt-4")` and `recommend_model(complexity="medium")` have Python defaults; the model's members take every argument, so callers pass the defaults explicitly.
- The loop in `list_incidents` that formats its output is presentation only and not modelled.
- The recommendation texts (`reason`, `use_cases`) are not part of the advice datatypes.
- CostSentinel.CostTracker.AddUsage: the source opens a zero entry and then increments it. The model writes that as one branch per case with the same resulting map.
- CostSentinel.CostTracker: `budget_limit` and `model_pricing` are assigned once in `__init__` and never again, so they are `const` fields.
- App.CostTracker: its fields are set once in `__init__` and never reassigned, so they are `const` fields with the source's values.
- `github_list_issues` (app.py:78-82) computes the same page as `list_recent_issues`, so `GithubWatcher.RecentIssues` models both.
