/**
 * The incident-response agent: root-cause selection, the remediation
 * playbook, the remediation gate, and the incident listing.
 */
module OpsAgent {
  import opened Text
  import opened Lists
  import opened Records
  import opened Guardrails

  // ---------------------------------------------------------------------------
  // Root cause and playbook
  // ---------------------------------------------------------------------------

  datatype RootCause =
    | ConnectionPoolExhaustion  // "timeout"
    | DiskFailure               // "corruption" or "checksum"
    | MemoryLeak                // "memory"
    | CacheMisconfiguration     // "cache"
    | UnknownCause              // manual investigation

  /** The first keyword found in the lowercased symptoms decides the cause. */
  function DetermineRootCause(incident: Incident): RootCause
  {
    var s := Lower(incident.symptoms);
    if Contains(s, "timeout") then ConnectionPoolExhaustion
    else if Contains(s, "corruption") || Contains(s, "checksum") then DiskFailure
    else if Contains(s, "memory") then MemoryLeak
    else if Contains(s, "cache") then CacheMisconfiguration
    else UnknownCause
  }

  /** The action list chosen by the playbook branch; it has no "checksum" case. */
  datatype Playbook = TimeoutPlaybook | CorruptionPlaybook | MemoryPlaybook | CachePlaybook | EscalatePlaybook

  function PlaybookFor(incident: Incident): Playbook
  {
    var s := Lower(incident.symptoms);
    if Contains(s, "timeout") then TimeoutPlaybook
    else if Contains(s, "corruption") then CorruptionPlaybook
    else if Contains(s, "memory") then MemoryPlaybook
    else if Contains(s, "cache") then CachePlaybook
    else EscalatePlaybook
  }

  // The remediation steps, one constant each.
  const IncreasePoolSize := "Increase database connection pool size to 200"
  const RestartConnectionService := "Restart database connection service"
  const CheckSlowQueries := "Check for long-running queries in slow query log"
  const RunIntegrityCheck := "Run database integrity check (CRITICAL - READ ONLY)"
  const RestoreBackup := "Restore from last known good backup"
  const AlertDatabaseTeam := "Alert database team for manual intervention"
  const RestartWorker := "Restart affected worker service"
  const EnableMemoryProfiling := "Enable memory profiling for next 24h"
  const ReviewWorkerChanges := "Review recent code changes in worker"
  const ClearCdnCache := "Clear CDN cache"
  const VerifyCacheConfiguration := "Verify cache configuration"
  const CheckOriginHeaders := "Check origin server response headers"
  const EscalateToOnCall := "Escalate to on-call engineer"

  function PlaybookActions(p: Playbook): seq<string>
  {
    match p
    case TimeoutPlaybook => [IncreasePoolSize, RestartConnectionService, CheckSlowQueries]
    case CorruptionPlaybook => [RunIntegrityCheck, RestoreBackup, AlertDatabaseTeam]
    case MemoryPlaybook => [RestartWorker, EnableMemoryProfiling, ReviewWorkerChanges]
    case CachePlaybook => [ClearCdnCache, VerifyCacheConfiguration, CheckOriginHeaders]
    case EscalatePlaybook => [EscalateToOnCall]
  }

  /** The root cause each playbook is written for. */
  function CauseOf(p: Playbook): RootCause
  {
    match p
    case TimeoutPlaybook => ConnectionPoolExhaustion
    case CorruptionPlaybook => DiskFailure
    case MemoryPlaybook => MemoryLeak
    case CachePlaybook => CacheMisconfiguration
    case EscalatePlaybook => UnknownCause
  }

  const AlertAction := "Set up real-time alerts for this service"

  /** `severity in ["HIGH", "CRITICAL"]`: exact, case-sensitive. */
  predicate IsHighSeverity(severity: string)
  {
    severity == "HIGH" || severity == "CRITICAL"
  }

  /**
   * The playbook's actions, then the alert action exactly once for a HIGH or
   * CRITICAL incident.
   */
  method SuggestActions(incident: Incident) returns (actions: seq<string>)
    ensures actions == PlaybookActions(PlaybookFor(incident)) + (if IsHighSeverity(incident.severity) then [AlertAction] else [])
    ensures 1 <= |actions| <= 4
  {
    var symptoms := Lower(incident.symptoms);
    actions := [];
    if Contains(symptoms, "timeout") {
      actions := actions + [IncreasePoolSize, RestartConnectionService, CheckSlowQueries];
    } else if Contains(symptoms, "corruption") {
      actions := actions + [RunIntegrityCheck, RestoreBackup, AlertDatabaseTeam];
    } else if Contains(symptoms, "memory") {
      actions := actions + [RestartWorker, EnableMemoryProfiling, ReviewWorkerChanges];
    } else if Contains(symptoms, "cache") {
      actions := actions + [ClearCdnCache, VerifyCacheConfiguration, CheckOriginHeaders];
    } else {
      actions := actions + [EscalateToOnCall];
    }
    if IsHighSeverity(incident.severity) {
      actions := actions + [AlertAction];
    }
  }

  /** Root cause and playbook agree everywhere except on a bare "checksum". */
  lemma RootCauseMatchesPlaybook(incident: Incident)
    ensures var s := Lower(incident.symptoms);
      CauseOf(PlaybookFor(incident)) == DetermineRootCause(incident) <==>
        !(Contains(s, "checksum") && !Contains(s, "timeout") && !Contains(s, "corruption"))
  {
  }

  /** Symptoms with "checksum" but no "corruption" (nor "timeout") get the disk cause but not the corruption actions. */
  lemma ChecksumMismatch(incident: Incident)
    requires var s := Lower(incident.symptoms);
      Contains(s, "checksum") && !Contains(s, "corruption") && !Contains(s, "timeout")
    ensures DetermineRootCause(incident) == DiskFailure
    ensures PlaybookFor(incident) != CorruptionPlaybook
  {
  }

  /** Upper-casing the symptoms changes neither the cause nor the playbook. */
  lemma RootCauseIgnoresCase(incident: Incident)
    ensures DetermineRootCause(incident.(symptoms := Upper(incident.symptoms))) == DetermineRootCause(incident)
    ensures PlaybookFor(incident.(symptoms := Upper(incident.symptoms))) == PlaybookFor(incident)
  {
    LowerOfUpper(incident.symptoms);
  }

  datatype IncidentAnalysis = IncidentAnalysis(id: string, incident: Incident, rootCause: RootCause, actions: seq<string>)

  /** Looks the incident up and analyses it; an unknown id gives `NotFound`. */
  method AnalyzeIncident(table: IncidentTable, id: string) returns (r: Lookup<IncidentAnalysis>)
    ensures r.NotFound? <==> forall i :: 0 <= i < |table| ==> table[i].0 != id
    ensures forall i :: 0 <= i < |table| && table[i].0 == id ==>
      r.Found? && r.value.id == id && r.value.incident == table[i].1 &&
      r.value.rootCause == DetermineRootCause(table[i].1) &&
      r.value.actions == PlaybookActions(PlaybookFor(table[i].1)) +
        (if IsHighSeverity(table[i].1.severity) then [AlertAction] else [])
  {
    var found := GetIncident(table, id);
    if found.NotFound? {
      return NotFound;
    }
    var incident := found.value;
    var actions := SuggestActions(incident);
    r := Found(IncidentAnalysis(id, incident, DetermineRootCause(incident), actions));
  }

  // ---------------------------------------------------------------------------
  // Remediation gate: the five allow rules are tested before the deny rules
  // ---------------------------------------------------------------------------

  datatype Execution = ServiceRestarted | ConfigurationUpdated | MonitoringEnabled | CacheCleared | CheckInitiated

  datatype BlockReason = DestructiveDatabaseOperation | TableDrop | DataTruncation

  datatype Remediation = Executed(execution: Execution) | Blocked(reason: BlockReason) | ManualRequired

  /** Some allow rule matches. */
  predicate Allowed(t: string)
  {
    || (Contains(t, "restart") && Contains(t, "service"))
    || (Contains(t, "increase") && (Contains(t, "pool") || Contains(t, "limit")))
    || Contains(t, "enable") || Contains(t, "set up")
    || (Contains(t, "clear") && Contains(t, "cache"))
    || Contains(t, "check") || Contains(t, "verify")
  }

  /**
   * Executes exactly when an allow rule matches; is blocked exactly when a
   * deny rule matches and no allow rule does; needs a human otherwise.
   */
  function ExecuteRemediation(action: string): (r: Remediation)
    ensures r.Executed? <==> Allowed(Lower(action))
    ensures r.Blocked? <==> Denied(Lower(action)) && !Allowed(Lower(action))
    ensures r.ManualRequired? <==> !Allowed(Lower(action)) && !Denied(Lower(action))
  {
    var a := Lower(action);
    if Contains(a, "restart") && Contains(a, "service") then Executed(ServiceRestarted)
    else if Contains(a, "increase") && (Contains(a, "pool") || Contains(a, "limit")) then Executed(ConfigurationUpdated)
    else if Contains(a, "enable") || Contains(a, "set up") then Executed(MonitoringEnabled)
    else if Contains(a, "clear") && Contains(a, "cache") then Executed(CacheCleared)
    else if Contains(a, "check") || Contains(a, "verify") then Executed(CheckInitiated)
    else if Contains(a, "delete") && (Contains(a, "prod") || Contains(a, "database")) then Blocked(DestructiveDatabaseOperation)
    else if Contains(a, "drop") then Blocked(TableDrop)
    else if Contains(a, "truncate") then Blocked(DataTruncation)
    else ManualRequired
  }

  /** Allow rules win: a "check" or "verify" action is never blocked, whatever it also says. */
  lemma CheckOrVerifyNeverBlocked(action: string)
    requires Contains(Lower(action), "check") || Contains(Lower(action), "verify")
    ensures ExecuteRemediation(action).Executed?
  {
  }

  /** A destructive delete is blocked exactly when no allow rule catches it first. */
  lemma DestructiveDeleteBlockedIff(action: string)
    requires DestructiveDelete(Lower(action))
    ensures ExecuteRemediation(action) == Blocked(DestructiveDatabaseOperation) <==> !Allowed(Lower(action))
    ensures !Allowed(Lower(action)) ==> ExecuteRemediation(action) == Blocked(DestructiveDatabaseOperation)
  {
  }

  /** "restart" executes only together with "service". */
  lemma RestartNeedsService(action: string)
    ensures ExecuteRemediation(action) == Executed(ServiceRestarted) <==>
      Contains(Lower(action), "restart") && Contains(Lower(action), "service")
  {
  }

  /** "increase" executes only with "pool" or "limit". */
  lemma IncreaseNeedsPoolOrLimit(action: string)
    ensures ExecuteRemediation(action) == Executed(ConfigurationUpdated) ==>
      Contains(Lower(action), "increase") && (Contains(Lower(action), "pool") || Contains(Lower(action), "limit"))
  {
  }

  /** The gate ignores case. */
  lemma RemediationIgnoresCase(action: string)
    ensures ExecuteRemediation(Upper(action)) == ExecuteRemediation(action)
  {
    LowerOfUpper(action);
  }

  // ---------------------------------------------------------------------------
  // Incident listing
  // ---------------------------------------------------------------------------

  function CreatedAt(entry: (string, Incident)): string
  {
    entry.1.createdAt
  }

  predicate HasStatus(entry: (string, Incident), status: string)
  {
    status == "all" || entry.1.status == status
  }

  /** The entries kept by the status filter, in document order. */
  function Matching(entries: seq<(string, Incident)>, status: string): (r: seq<(string, Incident)>)
    ensures |r| <= |entries|
    ensures forall e :: e in r ==> e in entries && HasStatus(e, status)
    ensures forall e :: e in entries && HasStatus(e, status) ==> e in r
    decreases |entries|
  {
    if entries == [] then []
    else
      var last := entries[|entries| - 1];
      assert entries == entries[..|entries| - 1] + [last];
      Matching(entries[..|entries| - 1], status) + (if HasStatus(last, status) then [last] else [])
  }

  /** The filtering loop of `list_incidents`. */
  method FilterIncidents(table: IncidentTable, status: string) returns (incidents: seq<(string, Incident)>)
    ensures incidents == Matching(table, status)
  {
    incidents := [];
    for i := 0 to |table|
      invariant incidents == Matching(table[..i], status)
    {
      assert table[..i + 1] == table[..i] + [table[i]];
      if status == "all" || table[i].1.status == status {
        incidents := incidents + [table[i]];
      }
    }
    assert table[..|table|] == table;
  }

  /**
   * Filter by status ("all" keeps everything), sort newest first (stable),
   * keep `incidents[:limit]`.
   */
  method ListIncidents(table: IncidentTable, status: string, limit: int) returns (shown: seq<(string, Incident)>)
    ensures shown == Prefix(SortNewestFirst(Matching(table, status), CreatedAt), limit)
    ensures limit >= 0 ==> |shown| == if limit < |Matching(table, status)| then limit else |Matching(table, status)|
    ensures forall e :: e in shown ==> e in table && HasStatus(e, status)
    ensures NewestFirst(shown, CreatedAt)
    ensures forall i, j :: 0 <= i < |shown| <= j < |Matching(table, status)| ==>
      !StrLess(CreatedAt(shown[i]), CreatedAt(SortNewestFirst(Matching(table, status), CreatedAt)[j]))
  {
    var incidents := FilterIncidents(table, status);
    incidents := SortNewestFirst(incidents, CreatedAt);
    SortNewestFirstOrdered(Matching(table, status), CreatedAt);
    PrefixOfOrdered(incidents, limit, CreatedAt);
    shown := Prefix(incidents, limit);
    forall e | e in shown
      ensures e in table && HasStatus(e, status)
    {
      assert e in multiset(incidents);
    }
  }

  /** Listing "all" with a limit that covers everything returns every incident, newest first. */
  lemma ListAllIsSortedTable(table: IncidentTable, limit: int)
    requires limit >= |table|
    ensures Prefix(SortNewestFirst(Matching(table, "all"), CreatedAt), limit) == SortNewestFirst(table, CreatedAt)
  {
    MatchingAll(table);
    var sorted := SortNewestFirst(table, CreatedAt);
    assert |multiset(sorted)| == |multiset(table)|;
  }

  lemma {:induction false} MatchingAll(entries: seq<(string, Incident)>)
    ensures Matching(entries, "all") == entries
    decreases |entries|
  {
    if entries != [] {
      MatchingAll(entries[..|entries| - 1]);
      assert entries == entries[..|entries| - 1] + [entries[|entries| - 1]];
    }
  }
}
