/**
 * The GitHub watcher agent: file-risk assessment of pull requests, review
 * recommendations for a code diff, pull-request lookup, the issue listing and
 * the recent-activity timeline.
 */
module GithubWatcher {
  import opened Text
  import opened Lists
  import opened Records
  import opened RiskScan

  // ---------------------------------------------------------------------------
  // Risk assessment
  // ---------------------------------------------------------------------------

  const ConfigurationFiles := "Configuration files"
  const EnvironmentVariables := "Environment variables"
  const SecretsCredentials := "Secrets/credentials"
  const AuthenticationLogic := "Authentication logic"
  const DatabaseSchema := "Database schema"
  const DatabaseMigrations := "Database migrations"
  const ConfigFiles := "Config files"

  /** The eight patterns, in dictionary order; ".yaml" and ".yml" share a description. */
  const GithubPatterns: PatternTable := [
    ("config", ConfigurationFiles),
    ("env", EnvironmentVariables),
    ("secret", SecretsCredentials),
    ("auth", AuthenticationLogic),
    ("database", DatabaseSchema),
    ("migration", DatabaseMigrations),
    (".yaml", ConfigFiles),
    (".yml", ConfigFiles)]

  /** `analyze_risk` over the eight patterns. */
  method AnalyzeRisk(files: seq<string>) returns (a: Assessment)
    ensures Assesses(a, files, GithubPatterns)
  {
    a := Classify(files, GithubPatterns);
  }

  /** The eight patterns carry seven distinct descriptions, so a HIGH tier needs four of the seven. */
  lemma GithubDescriptions()
    ensures Descriptions(GithubPatterns) ==
      {ConfigurationFiles, EnvironmentVariables, SecretsCredentials, AuthenticationLogic,
       DatabaseSchema, DatabaseMigrations, ConfigFiles}
    ensures |Descriptions(GithubPatterns)| == 7
    ensures ConfigFiles != ConfigurationFiles
  {
    var t := GithubPatterns;
    assert t[0].1 == ConfigurationFiles && t[1].1 == EnvironmentVariables && t[2].1 == SecretsCredentials;
    assert t[3].1 == AuthenticationLogic && t[4].1 == DatabaseSchema && t[5].1 == DatabaseMigrations;
    assert t[6].1 == ConfigFiles && t[7].1 == ConfigFiles;
    DistinctDescriptions();
  }

  lemma DistinctDescriptions()
    ensures |{ConfigurationFiles, EnvironmentVariables, SecretsCredentials, AuthenticationLogic,
              DatabaseSchema, DatabaseMigrations, ConfigFiles}| == 7
  {
    assert ConfigFiles != ConfigurationFiles by { assert |ConfigFiles| != |ConfigurationFiles|; }
    assert DatabaseSchema != DatabaseMigrations by { assert |DatabaseSchema| != |DatabaseMigrations|; }
  }

  // ---------------------------------------------------------------------------
  // Pull-request summary and code-diff analysis
  // ---------------------------------------------------------------------------

  datatype PrSummary = PrSummary(pr: PullRequest, risk: Assessment)

  /** `summarize_pr`: the first pull request with the number, with its risk; unknown numbers give `NotFound`. */
  method SummarizePr(prs: seq<PullRequest>, number: int) returns (r: Lookup<PrSummary>)
    ensures r.NotFound? <==> forall i :: 0 <= i < |prs| ==> prs[i].number != number
    ensures r.Found? ==>
      Found(r.value.pr) == FindPr(prs, number) &&
      Assesses(r.value.risk, r.value.pr.filesChanged, GithubPatterns)
  {
    var found := FindPr(prs, number);
    if found.NotFound? {
      return NotFound;
    }
    var risk := AnalyzeRisk(found.value.filesChanged);
    r := Found(PrSummary(found.value, risk));
  }

  datatype Recommendation = SecurityReview | DatabaseReview | ConfigurationReview | LargeChangeset | StandardReview

  /** The order in which the recommendations are emitted. */
  function Position(r: Recommendation): nat
  {
    match r
    case SecurityReview => 0
    case DatabaseReview => 1
    case ConfigurationReview => 2
    case LargeChangeset => 3
    case StandardReview => 4
  }

  predicate TouchesAuth(files: seq<string>)
  {
    exists i :: 0 <= i < |files| && Contains(Lower(files[i]), "auth")
  }

  predicate TouchesDatabase(files: seq<string>)
  {
    exists i :: 0 <= i < |files| && (Contains(Lower(files[i]), "database") || Contains(Lower(files[i]), "migration"))
  }

  /** "config" is looked for in the lowercased name, ".yaml" and ".yml" in the name as written. */
  predicate TouchesConfig(files: seq<string>)
  {
    exists i :: 0 <= i < |files| &&
      (Contains(Lower(files[i]), "config") || Contains(files[i], ".yaml") || Contains(files[i], ".yml"))
  }

  predicate IsLarge(pr: PullRequest)
  {
    pr.additions + pr.deletions > 500
  }

  /**
   * The emission rules, given which tests hold: each review independently of
   * the others, in a fixed order, and the standard review exactly when no
   * other one applies, then alone.
   */
  ghost predicate RulesHold(recs: seq<Recommendation>, auth: bool, database: bool, config: bool, large: bool)
  {
    && (SecurityReview in recs <==> auth)
    && (DatabaseReview in recs <==> database)
    && (ConfigurationReview in recs <==> config)
    && (LargeChangeset in recs <==> large)
    && (StandardReview in recs <==> !auth && !database && !config && !large)
    && (StandardReview in recs ==> recs == [StandardReview])
    && InEmissionOrder(recs)
  }

  /** What `analyze_code_diff` recommends for a pull request. */
  ghost predicate Recommends(recs: seq<Recommendation>, pr: PullRequest)
  {
    var files := pr.filesChanged;
    RulesHold(recs, TouchesAuth(files), TouchesDatabase(files), TouchesConfig(files), IsLarge(pr))
  }

  /** Each recommendation comes after the ones emitted before it. */
  ghost predicate InEmissionOrder(recs: seq<Recommendation>)
  {
    forall i :: 0 <= i < |recs| - 1 ==> Position(recs[i]) < Position(recs[i + 1])
  }

  /** `recs` is in emission order and its last recommendation comes before position `k`. */
  ghost predicate EmittedBefore(recs: seq<Recommendation>, k: nat)
  {
    InEmissionOrder(recs) && (|recs| > 0 ==> Position(recs[|recs| - 1]) < k)
  }

  /** So no recommendation is repeated and any two appear in emission order. */
  lemma {:induction false} EmissionOrderStrict(recs: seq<Recommendation>, i: int, j: int)
    requires InEmissionOrder(recs)
    requires 0 <= i < j < |recs|
    ensures Position(recs[i]) < Position(recs[j])
    decreases j - i
  {
    if j > i + 1 {
      EmissionOrderStrict(recs, i + 1, j);
    }
  }

  /** One rule: `r` is appended when its test holds; it comes after everything emitted so far. */
  method AppendIf(recs: seq<Recommendation>, holds: bool, r: Recommendation) returns (out: seq<Recommendation>)
    requires EmittedBefore(recs, Position(r))
    ensures EmittedBefore(out, Position(r) + 1)
    ensures forall x :: x in out <==> x in recs || (holds && x == r)
    ensures |out| == |recs| + (if holds then 1 else 0)
  {
    out := recs;
    if holds {
      out := out + [r];
    }
  }

  /** The appends of `analyze_code_diff`, once it is known which tests hold. */
  method Emit(auth: bool, database: bool, config: bool, large: bool) returns (recs: seq<Recommendation>)
    ensures RulesHold(recs, auth, database, config, large)
    ensures 1 <= |recs| <= 4
  {
    recs := [];
    recs := AppendIf(recs, auth, SecurityReview);
    recs := AppendIf(recs, database, DatabaseReview);
    recs := AppendIf(recs, config, ConfigurationReview);
    recs := AppendIf(recs, large, LargeChangeset);
    assert StandardReview !in recs;
    if recs == [] {
      recs := [StandardReview];
    }
  }

  /** The recommendation rules of `analyze_code_diff`. */
  method Recommend(pr: PullRequest) returns (recs: seq<Recommendation>)
    ensures Recommends(recs, pr)
    ensures 1 <= |recs| <= 4
  {
    var files := pr.filesChanged;
    recs := Emit(TouchesAuth(files), TouchesDatabase(files), TouchesConfig(files), IsLarge(pr));
  }

  datatype CodeDiffAnalysis = CodeDiffAnalysis(risk: Assessment, recommendations: seq<Recommendation>)

  /** `analyze_code_diff`: the risk and the recommendations of the first pull request with the number. */
  method AnalyzeCodeDiff(prs: seq<PullRequest>, number: int) returns (r: Lookup<CodeDiffAnalysis>)
    ensures r.NotFound? <==> forall i :: 0 <= i < |prs| ==> prs[i].number != number
    ensures r.Found? ==>
      && FindPr(prs, number).Found?
      && Assesses(r.value.risk, FindPr(prs, number).value.filesChanged, GithubPatterns)
      && Recommends(r.value.recommendations, FindPr(prs, number).value)
  {
    var found := FindPr(prs, number);
    if found.NotFound? {
      return NotFound;
    }
    var risk := AnalyzeRisk(found.value.filesChanged);
    var recs := Recommend(found.value);
    r := Found(CodeDiffAnalysis(risk, recs));
  }

  /**
   * The risk scan and the review rules disagree on case: an upper-case
   * ".YAML" file is a config risk but gets no configuration review.
   */
  lemma UpperCaseYamlMissesReview()
    ensures ConfigFiles in Matched(["PROD.YAML"], GithubPatterns)
    ensures !TouchesConfig(["PROD.YAML"])
  {
    var f := "PROD.YAML";
    LowerProdYaml();
    LowerProdYamlFacts(Lower(f));
    ProdYamlFacts(f);
    assert GithubPatterns[6] == (".yaml", ConfigFiles);
    assert ConfigFiles in Matched([f], GithubPatterns) by {
      assert [f][0] == f;
    }
    assert [f][0] == f;
  }

  lemma LowerProdYaml()
    ensures Lower("PROD.YAML") == "prod.yaml"
  {
  }

  lemma LowerProdYamlFacts(t: string)
    requires t == "prod.yaml"
    ensures Contains(t, ".yaml") && !Contains(t, "config")
  {
    assert t[4..9] == ".yaml";
    ContainsAt(t, ".yaml", 4);
    MissingChar(t, "config", 'c');
  }

  lemma ProdYamlFacts(f: string)
    requires f == "PROD.YAML"
    ensures !Contains(f, ".yaml") && !Contains(f, ".yml")
  {
    MissingChar(f, ".yaml", 'y');
    MissingChar(f, ".yml", 'y');
  }

  // ---------------------------------------------------------------------------
  // Issue listing and recent activity
  // ---------------------------------------------------------------------------

  datatype IssuePage = IssuePage(shown: seq<Issue>, total: nat)

  /**
   * `data['issues'][:limit]` with the full count; `github_list_issues` in the
   * web interface returns the same pair.
   */
  function RecentIssues(issues: seq<Issue>, limit: int): (r: IssuePage)
    ensures r.total == |issues| && |r.shown| <= |issues|
    ensures r.shown == issues[..|r.shown|]
    ensures limit >= 0 ==> |r.shown| == if limit < |issues| then limit else |issues|
    ensures limit < 0 ==> |r.shown| == if |issues| + limit > 0 then |issues| + limit else 0
  {
    IssuePage(Prefix(issues, limit), |issues|)
  }

  datatype EventKind = PrEvent | IssueEvent

  datatype Event = Event(kind: EventKind, date: string, title: string, number: int, author: string)

  function PrEventOf(pr: PullRequest): Event
  {
    Event(PrEvent, pr.createdAt, pr.title, pr.number, pr.author)
  }

  function IssueEventOf(issue: Issue): Event
  {
    Event(IssueEvent, issue.createdAt, issue.title, issue.number, issue.author)
  }

  function EventDate(e: Event): string
  {
    e.date
  }

  /** One event per pull request, in order. */
  function PrEvents(prs: seq<PullRequest>): (r: seq<Event>)
    ensures |r| == |prs|
    decreases |prs|
  {
    if prs == [] then [] else PrEvents(prs[..|prs| - 1]) + [PrEventOf(prs[|prs| - 1])]
  }

  /** One event per issue, in order. */
  function IssueEvents(issues: seq<Issue>): (r: seq<Event>)
    ensures |r| == |issues|
    decreases |issues|
  {
    if issues == [] then [] else IssueEvents(issues[..|issues| - 1]) + [IssueEventOf(issues[|issues| - 1])]
  }

  lemma {:induction false} PrEventsFrom(prs: seq<PullRequest>, e: Event)
    requires e in PrEvents(prs)
    ensures exists i :: 0 <= i < |prs| && e == PrEventOf(prs[i])
    decreases |prs|
  {
    var init := prs[..|prs| - 1];
    if e in PrEvents(init) {
      PrEventsFrom(init, e);
      var i :| 0 <= i < |init| && e == PrEventOf(init[i]);
      assert prs[i] == init[i];
    } else {
      assert e == PrEventOf(prs[|prs| - 1]);
    }
  }

  lemma {:induction false} IssueEventsFrom(issues: seq<Issue>, e: Event)
    requires e in IssueEvents(issues)
    ensures exists i :: 0 <= i < |issues| && e == IssueEventOf(issues[i])
    decreases |issues|
  {
    var init := issues[..|issues| - 1];
    if e in IssueEvents(init) {
      IssueEventsFrom(init, e);
      var i :| 0 <= i < |init| && e == IssueEventOf(init[i]);
      assert issues[i] == init[i];
    } else {
      assert e == IssueEventOf(issues[|issues| - 1]);
    }
  }

  /** The events before sorting: the first three pull requests, then the first three issues. */
  function Timeline(prs: seq<PullRequest>, issues: seq<Issue>): (r: seq<Event>)
    ensures |r| == |Prefix(prs, 3)| + |Prefix(issues, 3)|
  {
    PrEvents(Prefix(prs, 3)) + IssueEvents(Prefix(issues, 3))
  }

  /** Every timeline event is one of the first three pull requests or issues. */
  lemma TimelineSources(prs: seq<PullRequest>, issues: seq<Issue>, e: Event)
    requires e in Timeline(prs, issues)
    ensures (exists i :: 0 <= i < |prs| && i < 3 && e == PrEventOf(prs[i])) ||
            (exists i :: 0 <= i < |issues| && i < 3 && e == IssueEventOf(issues[i]))
  {
    var p, s := Prefix(prs, 3), Prefix(issues, 3);
    if e in PrEvents(p) {
      PrEventsFrom(p, e);
      var i :| 0 <= i < |p| && e == PrEventOf(p[i]);
      assert p[i] == prs[i];
    } else {
      assert e in IssueEvents(s);
      IssueEventsFrom(s, e);
      var i :| 0 <= i < |s| && e == IssueEventOf(s[i]);
      assert s[i] == issues[i];
    }
  }

  /** What the sort and the slice keep still comes from the first three pull requests or issues. */
  lemma ActivitySources(prs: seq<PullRequest>, issues: seq<Issue>)
    ensures forall e :: e in Prefix(SortNewestFirst(Timeline(prs, issues), EventDate), 5) ==>
      (exists i :: 0 <= i < |prs| && i < 3 && e == PrEventOf(prs[i])) ||
      (exists i :: 0 <= i < |issues| && i < 3 && e == IssueEventOf(issues[i]))
  {
    var sorted := SortNewestFirst(Timeline(prs, issues), EventDate);
    forall e | e in Prefix(sorted, 5)
      ensures (exists i :: 0 <= i < |prs| && i < 3 && e == PrEventOf(prs[i])) ||
              (exists i :: 0 <= i < |issues| && i < 3 && e == IssueEventOf(issues[i]))
    {
      assert e in multiset(sorted);
      TimelineSources(prs, issues, e);
    }
  }

  /** The loops of `get_recent_activity` that build its event list, before the sort. */
  method CollectEvents(prs: seq<PullRequest>, issues: seq<Issue>) returns (events: seq<Event>)
    ensures events == Timeline(prs, issues)
  {
    events := [];
    var firstPrs := Prefix(prs, 3);
    for i := 0 to |firstPrs|
      invariant events == PrEvents(firstPrs[..i])
    {
      assert firstPrs[..i + 1][..i] == firstPrs[..i];
      events := events + [PrEventOf(firstPrs[i])];
    }
    assert firstPrs[..|firstPrs|] == firstPrs;
    var firstIssues := Prefix(issues, 3);
    for i := 0 to |firstIssues|
      invariant events == PrEvents(firstPrs) + IssueEvents(firstIssues[..i])
    {
      assert firstIssues[..i + 1][..i] == firstIssues[..i];
      events := events + [IssueEventOf(firstIssues[i])];
    }
    assert firstIssues[..|firstIssues|] == firstIssues;
  }

  /**
   * `get_recent_activity`: the timeline sorted newest first (stably), at most
   * five events, none of them older than an event left out.
   */
  method RecentActivity(prs: seq<PullRequest>, issues: seq<Issue>) returns (shown: seq<Event>)
    ensures shown == Prefix(SortNewestFirst(Timeline(prs, issues), EventDate), 5)
    ensures |shown| == if |Timeline(prs, issues)| < 5 then |Timeline(prs, issues)| else 5
    ensures NewestFirst(shown, EventDate)
    ensures forall i, j :: 0 <= i < |shown| <= j < |Timeline(prs, issues)| ==>
      !StrLess(EventDate(shown[i]), EventDate(SortNewestFirst(Timeline(prs, issues), EventDate)[j]))
    ensures forall e :: e in shown ==>
      (exists i :: 0 <= i < |prs| && i < 3 && e == PrEventOf(prs[i])) ||
      (exists i :: 0 <= i < |issues| && i < 3 && e == IssueEventOf(issues[i]))
  {
    var events := CollectEvents(prs, issues);
    var sorted := SortNewestFirst(events, EventDate);
    SortNewestFirstOrdered(events, EventDate);
    PrefixOfOrdered(sorted, 5, EventDate);
    shown := Prefix(sorted, 5);
    ActivitySources(prs, issues);
  }
}
