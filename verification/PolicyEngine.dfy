/** The hard safety policy (core/policy_engine.py) and its use as the evaluator's fallback
    (core/conftest_policy.py). */
module PolicyEngine {
  import opened Wrappers
  import opened Evidence
  import opened ConflictDetector
  import opened AlternativeGenerator
  import opened Verifier

  datatype PolicyStatus = AllPassed | PolicyBlocked | NeedsContext

  datatype Reason =
    | DeleteBlocks | ProductionBlocks | OwnerUnknown | CriticalEvidenceMissing | ConfidenceTooLow | DependencyBlocks
    | UtilizationRequired | PeakBlocks | SavingsRequired | CriticalCheckFailed
    | ContextMissing(source: Source) | ContextConflict(claim: Claim) | ContextRequested

  datatype PolicyResult = PolicyResult(allowed: bool, status: PolicyStatus, reasons: seq<Reason>,
                                       requiresApproval: bool)

  predicate UtilizationIncomplete(evidence: seq<Item>, missing: seq<Missing>) {
    || (exists m <- missing :: m.source == Utilization && m.critical)
    || AverageCpu(evidence).None? || PeakCpu(evidence).None?
  }

  function Blocking(resource: Resource, evidence: seq<Item>, missing: seq<Missing>, action: Action,
                    findings: seq<Finding>,
                    ownerKnown: bool, confidence: Option<real>, minimum: real): seq<Reason> {
    var remediation := IsRemediation(action);
    When(action == Blocked && resource.destructive, DeleteBlocks)
    + When(action == Blocked && resource.production, ProductionBlocks)
    + When(remediation && resource.destructive, DeleteBlocks)
    + When(remediation && resource.production, ProductionBlocks)
    + When(remediation && !ownerKnown, OwnerUnknown)
    + When(remediation && CriticalMissing(missing), CriticalEvidenceMissing)
    + When(remediation && confidence.Some? && confidence.value < minimum, ConfidenceTooLow)
    + When((remediation || action == Abstain) && ActiveDependencies(evidence), DependencyBlocks)
    + When(action == Downsize && UtilizationIncomplete(evidence, missing), UtilizationRequired)
    + When(action == Downsize && PeakCpu(evidence).Some? && PeakCpu(evidence).value >= 70.0, PeakBlocks)
    + When(action == Downsize && MonthlySavings(evidence) <= 0.0, SavingsRequired)
    + When(CriticalFailure(findings), CriticalCheckFailed)
  }

  function MissingReasons(missing: seq<Missing>): seq<Reason> {
    if missing == [] then []
    else When(missing[0].critical, ContextMissing(missing[0].source)) + MissingReasons(missing[1..])
  }

  function ConflictReasons(conflicts: seq<Conflict>): seq<Reason> {
    if conflicts == [] then []
    else When(conflicts[0].severity == High, ContextConflict(conflicts[0].claim)) + ConflictReasons(conflicts[1..])
  }

  function ContextReasons(missing: seq<Missing>, conflicts: seq<Conflict>): (r: seq<Reason>)
    ensures r != []
  {
    var named := MissingReasons(missing) + ConflictReasons(conflicts);
    if named == [] then [ContextRequested] else named
  }

  function EvaluatePolicy(resource: Resource, evidence: seq<Item>, missing: seq<Missing>, action: Action,
                          findings: seq<Finding>,
                          conflicts: seq<Conflict>, ownerKnown: bool, confidence: Option<real>,
                          minimum: real): PolicyResult {
    var blocking := Blocking(resource, evidence, missing, action, findings, ownerKnown, confidence, minimum);
    if blocking != [] then PolicyResult(false, PolicyBlocked, blocking, false)
    else if action == RequestEvidence then PolicyResult(false, NeedsContext, ContextReasons(missing, conflicts), false)
    else PolicyResult(true, AllPassed, [], IsRemediation(action))
  }

  /** The call made before any evaluator runs: owner assumed known, no confidence bound. */
  function PlainPolicy(resource: Resource, evidence: seq<Item>, missing: seq<Missing>, action: Action,
                       findings: seq<Finding>,
                       conflicts: seq<Conflict>): PolicyResult {
    EvaluatePolicy(resource, evidence, missing, action, findings, conflicts, true, None, 0.7)
  }

  predicate OwnerKnown(resource: Resource, evidence: seq<Item>) {
    resource.hasOwnerTag || ValueFor(evidence, Jira).issueKey
  }

  /** A remediation is allowed exactly when its facts are defensible, nothing critical is missing, the owner is
      known and the confidence bound is met; downsizing also needs both CPU figures. */
  lemma RemediationAllowedIff(resource: Resource, evidence: seq<Item>, missing: seq<Missing>, action: Action,
                              conflicts: seq<Conflict>,
                              ownerKnown: bool, confidence: Option<real>, minimum: real)
    requires IsRemediation(action)
    ensures EvaluatePolicy(resource, evidence, missing, action, RunVerifier(resource, evidence, conflicts, action),
                           conflicts, ownerKnown, confidence, minimum).allowed <==>
      && Defensible(resource, evidence, conflicts, action) && !CriticalMissing(missing) && ownerKnown
      && (confidence.Some? ==> confidence.value >= minimum)
      && (action == Downsize ==> AverageCpu(evidence).Some?)
  {
    CriticalFailureIff(resource, evidence, conflicts, action);
  }

  /** The other actions: keeping is always allowed, a request for evidence never is and asks for context, blocking and
      abstaining are denied exactly over what caused them. None of them asks for approval. */
  lemma OtherActionsAllowedIff(resource: Resource, evidence: seq<Item>, missing: seq<Missing>, action: Action,
                               conflicts: seq<Conflict>,
                               ownerKnown: bool, confidence: Option<real>, minimum: real)
    requires !IsRemediation(action)
    ensures var policy := EvaluatePolicy(resource, evidence, missing, action,
                                         RunVerifier(resource, evidence, conflicts, action),
                                         conflicts, ownerKnown, confidence, minimum);
            && !policy.requiresApproval
            && (policy.status == NeedsContext <==> action == RequestEvidence)
            && (policy.allowed <==> match action
                                    case Keep => true
                                    case Blocked => !HardBlocked(resource)
                                    case Abstain => !ActiveDependencies(evidence)
                                    case _ => false)
  {
    hide RunVerifier, CriticalFailure, CriticalMissing, ActiveDependencies, UtilizationIncomplete, PeakCpu;
    hide MonthlySavings;
    CriticalFailureIff(resource, evidence, conflicts, action);
  }
}
