/** Checks that challenge the preferred action (core/verifier.py). */
module Verifier {
  import opened Evidence
  import opened ConflictDetector
  import opened AlternativeGenerator

  datatype Check =
    | ProductionEnvironment | DeleteOrReplacement | ActiveDependency | PeakHeadroom | MissingUtilization
    | StaleUtilizationCheck
    | MissingProjectContext | JiraGitCheck | MinimumSavings | PositiveSavings | ProposedTypePresent
    | ReliabilityThreshold

  datatype CheckStatus = Passed | Warning | Failed

  datatype Finding = Finding(check: Check, status: CheckStatus, severity: Severity)

  const RELIABILITY_THRESHOLD := 0.75
  const SAVINGS_THRESHOLD := 20.0

  predicate IsRemediation(action: Action) {
    action == Downsize || action == Schedule
  }

  function Graded(check: Check, fails: bool, severity: Severity): Finding {
    if fails then Finding(check, Failed, severity) else Finding(check, Passed, Info)
  }

  predicate LowReliability(evidence: seq<Item>) {
    exists e <- evidence :: e.freshness != Unavailable && e.reliability < RELIABILITY_THRESHOLD
  }

  predicate LacksHeadroom(evidence: seq<Item>) {
    var peak := PeakCpu(evidence);
    peak.None? || peak.value >= 70.0
  }

  predicate LacksSavings(evidence: seq<Item>) {
    var pricing := ValueFor(evidence, Pricing);
    pricing.currentCost.None? || pricing.proposedCost.None? || MonthlySavings(evidence) <= 0.0
  }

  function RunVerifier(resource: Resource, evidence: seq<Item>, conflicts: seq<Conflict>,
                       action: Action): seq<Finding> {
    var remediation := IsRemediation(action);
    var downsize := action == Downsize;
    var utilization := ItemBySource(evidence, Utilization);
    [ Graded(ProductionEnvironment, remediation && resource.production, Critical),
      Graded(DeleteOrReplacement, remediation && resource.destructive, Critical),
      Graded(ActiveDependency, remediation && ActiveDependencies(evidence), Critical),
      Graded(PeakHeadroom, downsize && LacksHeadroom(evidence), Critical),
      Graded(MissingUtilization, downsize && utilization.None?, Critical),
      Graded(StaleUtilizationCheck, downsize && StaleItem(utilization), High),
      if ItemBySource(evidence, Jira).None? then Finding(MissingProjectContext, Warning, Medium)
      else Finding(MissingProjectContext, Passed, Info),
      Graded(JiraGitCheck, remediation && Claims(conflicts, JiraGitConflict), Critical),
      Graded(MinimumSavings, downsize && MonthlySavings(evidence) < SAVINGS_THRESHOLD, High),
      Graded(PositiveSavings, downsize && LacksSavings(evidence), Critical),
      Graded(ProposedTypePresent, downsize && !resource.hasProposedType, Critical),
      Graded(ReliabilityThreshold, remediation && LowReliability(evidence), High) ]
  }

  predicate CriticalFailure(findings: seq<Finding>) {
    exists f <- findings :: f.status == Failed && f.severity == Critical
  }

  /** What the recorded facts must look like for a remediation to be defensible. */
  predicate Defensible(resource: Resource, evidence: seq<Item>, conflicts: seq<Conflict>, action: Action) {
    && !resource.production && !resource.destructive
    && !ActiveDependencies(evidence) && !Claims(conflicts, JiraGitConflict)
    && (action == Downsize ==>
          !LacksHeadroom(evidence) && ItemBySource(evidence, Utilization).Some? && !LacksSavings(evidence)
          && resource.hasProposedType)
  }

  /** The first, second, ... check fails critically. */
  predicate FailsAt(findings: seq<Finding>, i: nat)
    requires i < |findings|
  {
    findings[i].status == Failed && findings[i].severity == Critical
  }

  lemma CriticalChecks(resource: Resource, evidence: seq<Item>, conflicts: seq<Conflict>, action: Action)
    ensures var findings := RunVerifier(resource, evidence, conflicts, action);
            var remediation, downsize := IsRemediation(action), action == Downsize;
            && |findings| == 12
            && (FailsAt(findings, 0) <==> remediation && resource.production)
            && (FailsAt(findings, 1) <==> remediation && resource.destructive)
            && (FailsAt(findings, 2) <==> remediation && ActiveDependencies(evidence))
            && (FailsAt(findings, 3) <==> downsize && LacksHeadroom(evidence))
            && (FailsAt(findings, 4) <==> downsize && ItemBySource(evidence, Utilization).None?)
            && (FailsAt(findings, 7) <==> remediation && Claims(conflicts, JiraGitConflict))
            && (FailsAt(findings, 9) <==> downsize && LacksSavings(evidence))
            && (FailsAt(findings, 10) <==> downsize && !resource.hasProposedType)
            && forall i | i in {5, 6, 8, 11} :: !FailsAt(findings, i)
  {
    hide ActiveDependencies, LacksHeadroom, LacksSavings, Claims, MonthlySavings, LowReliability, StaleItem;
    hide ItemBySource;
  }

  /** For a remediation, no critical check fails exactly when the facts are defensible. */
  lemma CriticalFailureIff(resource: Resource, evidence: seq<Item>, conflicts: seq<Conflict>, action: Action)
    ensures IsRemediation(action) ==>
      (CriticalFailure(RunVerifier(resource, evidence, conflicts, action))
       <==> !Defensible(resource, evidence, conflicts, action))
    ensures !IsRemediation(action) ==> !CriticalFailure(RunVerifier(resource, evidence, conflicts, action))
  {
    hide RunVerifier, ActiveDependencies, LacksHeadroom, LacksSavings, Claims, ItemBySource;
    CriticalChecks(resource, evidence, conflicts, action);
    var findings := RunVerifier(resource, evidence, conflicts, action);
    FailureIsSomewhere(findings);
  }

  lemma FailureIsSomewhere(findings: seq<Finding>)
    requires |findings| == 12
    ensures CriticalFailure(findings) <==>
      || FailsAt(findings, 0) || FailsAt(findings, 1) || FailsAt(findings, 2) || FailsAt(findings, 3)
      || FailsAt(findings, 4) || FailsAt(findings, 5) || FailsAt(findings, 6) || FailsAt(findings, 7)
      || FailsAt(findings, 8) || FailsAt(findings, 9) || FailsAt(findings, 10) || FailsAt(findings, 11)
  {
    if CriticalFailure(findings) {
      var f :| f in findings && f.status == Failed && f.severity == Critical;
      var i: nat :| i < |findings| && findings[i] == f;
      assert FailsAt(findings, i);
    }
    if i: nat :| i < |findings| && FailsAt(findings, i) {
      assert findings[i] in findings;
    }
  }
}
