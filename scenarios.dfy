/**
 * Concrete actions run through both remediation gates: the agent's gate,
 * whose allow rules come first, and the web interface's, whose deny rules
 * come first.
 */
module Scenarios {
  import opened Text
  import opened Guardrails
  import OpsAgent
  import App

  const DeleteProduction := "Delete production database"
  const RestartApi := "Restart API service"
  const CheckAndDrop := "Check and drop table"

  /** A destructive delete that no allow rule catches is blocked by both gates. */
  lemma DeleteProductionBlockedByBoth()
    ensures OpsAgent.ExecuteRemediation(DeleteProduction) == OpsAgent.Blocked(OpsAgent.DestructiveDatabaseOperation)
    ensures App.ExecuteAction(DeleteProduction) == App.AppBlocked(App.DestructiveDatabaseOperation)
  {
    DeleteProductionFacts();
  }

  /** Restarting a service is executed by the agent and succeeds in the web interface. */
  lemma RestartApiExecutedByBoth()
    ensures OpsAgent.ExecuteRemediation(RestartApi) == OpsAgent.Executed(OpsAgent.ServiceRestarted)
    ensures App.ExecuteAction(RestartApi) == App.Succeeded(App.Restarted)
  {
    RestartApiFacts();
  }

  /** The gates disagree: the agent lets "check" win over "drop", the web interface blocks. */
  lemma CheckAndDropSplitsTheGates()
    ensures OpsAgent.ExecuteRemediation(CheckAndDrop) == OpsAgent.Executed(OpsAgent.CheckInitiated)
    ensures App.ExecuteAction(CheckAndDrop) == App.AppBlocked(App.DataDeletion)
  {
    CheckAndDropFacts();
  }

  lemma DeleteProductionFacts()
    ensures DestructiveDelete(Lower(DeleteProduction))
    ensures !OpsAgent.Allowed(Lower(DeleteProduction))
  {
    LowerDeleteProduction();
    var t := Lower(DeleteProduction);
    DeleteProductionDenied(t);
    DeleteProductionNotAllowed(t);
  }

  lemma RestartApiFacts()
    ensures Contains(Lower(RestartApi), "restart") && Contains(Lower(RestartApi), "service")
    ensures !Denied(Lower(RestartApi))
  {
    LowerRestartApi();
    var t := Lower(RestartApi);
    ContainsAt(t, "restart", 0);
    ContainsAt(t, "service", 12);
    RestartApiNotDenied(t);
  }

  lemma CheckAndDropFacts()
    ensures Contains(Lower(CheckAndDrop), "check") && Contains(Lower(CheckAndDrop), "drop")
    ensures !DestructiveDelete(Lower(CheckAndDrop))
    ensures !Contains(Lower(CheckAndDrop), "restart") && !Contains(Lower(CheckAndDrop), "increase")
    ensures !Contains(Lower(CheckAndDrop), "enable") && !Contains(Lower(CheckAndDrop), "set up")
    ensures !Contains(Lower(CheckAndDrop), "clear")
  {
    LowerCheckAndDrop();
    var t := Lower(CheckAndDrop);
    ContainsAt(t, "check", 0);
    ContainsAt(t, "drop", 10);
    CheckAndDropEarlierRules(t);
    CheckAndDropNoDelete(t);
  }

  lemma LowerDeleteProduction()
    ensures Lower(DeleteProduction) == "delete production database"
  {
  }

  lemma LowerRestartApi()
    ensures Lower(RestartApi) == "restart api service"
  {
  }

  lemma LowerCheckAndDrop()
    ensures Lower(CheckAndDrop) == "check and drop table"
  {
  }

  lemma DeleteProductionDenied(t: string)
    requires t == "delete production database"
    ensures DestructiveDelete(t)
  {
    ContainsAt(t, "delete", 0);
    assert t[7..11] == "prod";
    ContainsAt(t, "prod", 7);
  }

  /** No allow rule of the agent's gate matches "delete production database". */
  lemma DeleteProductionNotAllowed(t: string)
    requires t == "delete production database"
    ensures !OpsAgent.Allowed(t)
  {
    DeleteProductionNoRestart(t);
    DeleteProductionNoEnable(t);
    NoAdjacent(t, "clear", 0);
    MissingChar(t, "check", 'h');
    MissingChar(t, "verify", 'v');
  }

  lemma DeleteProductionNoRestart(t: string)
    requires t == "delete production database"
    ensures !Contains(t, "restart") && !Contains(t, "increase")
  {
    NoAdjacent(t, "restart", 0);
    NoAdjacent(t, "increase", 0);
  }

  lemma DeleteProductionNoEnable(t: string)
    requires t == "delete production database"
    ensures !Contains(t, "enable") && !Contains(t, "set up")
  {
    NoAdjacent(t, "enable", 0);
    NoAdjacent(t, "set up", 2);
  }

  lemma RestartApiNotDenied(t: string)
    requires t == "restart api service"
    ensures !Denied(t)
  {
    MissingChar(t, "delete", 'd');
    MissingChar(t, "drop", 'd');
    MissingChar(t, "truncate", 'u');
  }

  /** None of the agent's rules before "check" matches "check and drop table". */
  lemma CheckAndDropEarlierRules(t: string)
    requires t == "check and drop table"
    ensures !Contains(t, "restart") && !Contains(t, "increase")
    ensures !Contains(t, "enable") && !Contains(t, "set up") && !Contains(t, "clear")
  {
    MissingChar(t, "restart", 's');
    MissingChar(t, "increase", 'i');
    MissingChar(t, "set up", 's');
    CheckAndDropNoEnable(t);
  }

  lemma CheckAndDropNoEnable(t: string)
    requires t == "check and drop table"
    ensures !Contains(t, "enable") && !Contains(t, "clear")
  {
    NoAdjacent(t, "enable", 0);
    NoAdjacent(t, "clear", 0);
  }

  lemma CheckAndDropNoDelete(t: string)
    requires t == "check and drop table"
    ensures !DestructiveDelete(t)
  {
    NoAdjacent(t, "delete", 0);
  }
}
