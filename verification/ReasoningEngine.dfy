/** The deterministic decision pipeline (core/reasoning_engine.py) and the two ways the workflow service
    re-runs it (core/workflow_service.py, `_recalculate_decision` and `_modify`). */
module ReasoningEngine {
  import opened Wrappers
  import opened Evidence
  import opened ConflictDetector
  import opened AlternativeGenerator
  import opened Verifier
  import opened PolicyEngine
  import opened Confidence

  /** Any policy evaluator at all: nothing below assumes what it answers. */
  type Evaluator = (Resource, seq<Item>, seq<Missing>, Alternative, seq<Finding>, seq<Conflict>,
                    Breakdown) -> PolicyResult

  datatype FinalStatus = RecommendationReady | DecisionBlocked | Abstained | NeedsHumanContext | KeepAsIs

  datatype Execution = Execution(tool: Source, completed: bool)

  datatype Decision = Decision(
    selectedTools: seq<Source>,
    executions: seq<Execution>,
    evidence: seq<Item>,
    conflicts: seq<Conflict>,
    missing: seq<Missing>,
    alternatives: seq<Alternative>,
    preferred: Action,
    confidence: Breakdown,
    findings: seq<Finding>,
    policy: PolicyResult,
    finalStatus: FinalStatus)

  const PRIORITY := [RequestEvidence, Abstain, Downsize, Schedule, Keep]

  function SelectByPriority(alternatives: seq<Alternative>, order: seq<Action>): (r: Option<Alternative>)
    ensures r.Some? ==> r.value in alternatives && r.value.Eligible()
    ensures r.None? ==> forall a <- alternatives :: a.action in order ==> !a.Eligible()
  {
    if order == [] then None
    else
      var first := FirstWith(alternatives, order[0], true);
      if first.Some? then first else SelectByPriority(alternatives, order[1..])
  }

  /** `None` is the source's `StopIteration`. */
  function SelectPreferred(alternatives: seq<Alternative>, hardBlock: bool): Option<Alternative> {
    if hardBlock then FirstWith(alternatives, Blocked, false)
    else
      var chosen := SelectByPriority(alternatives, PRIORITY);
      if chosen.Some? then chosen else FirstWith(alternatives, Keep, false)
  }

  /** The selection never raises on a generated list, and picks exactly this action. */
  function ExpectedAction(resource: Resource, evidence: seq<Item>, missing: seq<Missing>, conflicts: seq<Conflict>,
                          hardBlock: bool): Action {
    if hardBlock then Blocked
    else if MustRequest(missing, conflicts) then RequestEvidence
    else if MayAbstain(evidence, missing, conflicts) then Abstain
    else if DownsizeFacts(resource, evidence, conflicts) then Downsize
    else if ScheduleFacts(resource, evidence) then Schedule
    else Keep
  }

  /** `next(item for item in alternatives if item.action == action)` on a generated list, which always has the five
      unconditional actions. */
  function AlternativeFor(resource: Resource, evidence: seq<Item>, missing: seq<Missing>, conflicts: seq<Conflict>,
                          action: Action): (r: Alternative)
    requires action != Blocked
    ensures r in GenerateAlternatives(resource, evidence, missing, conflicts) && r.action == action
  {
    GeneratedIff(resource, evidence, missing, conflicts, Proposal(action, resource, evidence, missing, conflicts));
    FirstWith(GenerateAlternatives(resource, evidence, missing, conflicts), action, false).value
  }

  /** The first action of the order with an eligible alternative wins. */
  lemma {:induction false} PriorityPicks(alternatives: seq<Alternative>, order: seq<Action>, k: nat, best: Alternative)
    requires k < |order| && best in alternatives && best.action == order[k] && best.Eligible()
    requires forall a <- alternatives :: a.action == best.action ==> a == best
    requires forall j, a | 0 <= j < k && a in alternatives && a.action == order[j] :: !a.Eligible()
    ensures SelectByPriority(alternatives, order) == Some(best)
  {
    if k > 0 {
      assert FirstWith(alternatives, order[0], true).None?;
      forall j, a | 0 <= j < k - 1 && a in alternatives && a.action == order[1..][j] ensures !a.Eligible() {
        assert order[j + 1] == a.action;
      }
      PriorityPicks(alternatives, order[1..], k - 1, best);
    }
  }

  function Rank(action: Action): nat
    requires action != Blocked
    ensures Rank(action) < |PRIORITY| && PRIORITY[Rank(action)] == action
  {
    match action
    case RequestEvidence => 0
    case Abstain => 1
    case Downsize => 2
    case Schedule => 3
    case Keep => 4
  }

  lemma SelectsExpected(resource: Resource, evidence: seq<Item>, missing: seq<Missing>, conflicts: seq<Conflict>,
                        hardBlock: bool)
    requires hardBlock ==> HardBlocked(resource)
    ensures var alternatives := GenerateAlternatives(resource, evidence, missing, conflicts);
            var preferred := SelectPreferred(alternatives, hardBlock);
            && preferred.Some? && preferred.value in alternatives
            && preferred.value.action == ExpectedAction(resource, evidence, missing, conflicts, hardBlock)
  {
    hide MustRequest, MayAbstain, DownsizeFacts, ScheduleFacts, Rejections, Savings, GenerateAlternatives;
    hide SelectByPriority;
    var alternatives := GenerateAlternatives(resource, evidence, missing, conflicts);
    var action := ExpectedAction(resource, evidence, missing, conflicts, hardBlock);
    var best := Proposal(action, resource, evidence, missing, conflicts);
    GeneratedIff(resource, evidence, missing, conflicts, best);
    if !hardBlock {
      forall a <- alternatives
        ensures a.action == action ==> a == best
        ensures a.Eligible() <==> FactsFor(a.action, resource, evidence, missing, conflicts)
      {
        GeneratedIff(resource, evidence, missing, conflicts, a);
        EligibleIff(a.action, resource, evidence, missing, conflicts);
      }
      PriorityPicks(alternatives, PRIORITY, Rank(action), best);
    }
  }

  function StatusOf(action: Action, policy: PolicyResult): FinalStatus {
    if action == Blocked then DecisionBlocked
    else if action == Abstain then Abstained
    else if !policy.allowed then (if policy.status == NeedsContext then NeedsHumanContext else DecisionBlocked)
    else if action == RequestEvidence then NeedsHumanContext
    else if action == Keep then KeepAsIs
    else if policy.status == NeedsContext then NeedsHumanContext
    else RecommendationReady
  }

  /** The alternative preferred before any policy runs; `conflicting` is the explicit conflict-audit scenario. */
  function InitialChoice(resource: Resource, conflicting: bool, evidence: seq<Item>,
                         missing: seq<Missing>): (r: Alternative)
    ensures r in GenerateAlternatives(resource, evidence, missing, DetectConflicts(evidence))
    ensures r.action == if conflicting then RequestEvidence
                        else ExpectedAction(resource, evidence, missing, DetectConflicts(evidence),
                                            HardBlocked(resource))
  {
    var conflicts := DetectConflicts(evidence);
    var alternatives := GenerateAlternatives(resource, evidence, missing, conflicts);
    var hardBlock := (resource.destructive && !conflicting) || resource.production;
    SelectsExpected(resource, evidence, missing, conflicts, hardBlock);
    var selected := SelectPreferred(alternatives, hardBlock).value;
    if conflicting then AlternativeFor(resource, evidence, missing, conflicts, RequestEvidence) else selected
  }

  /** The decision record for a preferred action and the policy's answer to it. */
  function Conclude(resource: Resource, selectedTools: seq<Source>, executions: seq<Execution>, evidence: seq<Item>,
                    missing: seq<Missing>, action: Action, policy: PolicyResult): Decision {
    var conflicts := DetectConflicts(evidence);
    Decision(selectedTools, executions, evidence, conflicts, missing,
             GenerateAlternatives(resource, evidence, missing, conflicts), action,
             CalculateConfidence(evidence, conflicts, policy, selectedTools),
             RunVerifier(resource, evidence, conflicts, action), policy, StatusOf(action, policy))
  }

  /** The evaluator's answer for an alternative, given the confidence of a plain policy run over `checked`. */
  function Ask(resource: Resource, selectedTools: seq<Source>, evidence: seq<Item>, missing: seq<Missing>,
               preferred: Alternative,
               checked: seq<Finding>, evaluate: Evaluator): PolicyResult {
    var conflicts := DetectConflicts(evidence);
    var plain := PlainPolicy(resource, evidence, missing, preferred.action, checked, conflicts);
    var provisional := CalculateConfidence(evidence, conflicts, plain, selectedTools);
    evaluate(resource, evidence, missing, preferred, RunVerifier(resource, evidence, conflicts, preferred.action),
             conflicts, provisional)
  }

  /** `_build_decision`: a denied remediation falls back to keeping the change, asked again with its own findings. */
  function BuildDecision(resource: Resource, conflicting: bool, selectedTools: seq<Source>, executions: seq<Execution>,
                         evidence: seq<Item>, missing: seq<Missing>, evaluate: Evaluator): Decision {
    var preferred := InitialChoice(resource, conflicting, evidence, missing);
    var policy := Ask(resource, selectedTools, evidence, missing, preferred, [], evaluate);
    if !policy.allowed && IsRemediation(preferred.action) then
      var conflicts := DetectConflicts(evidence);
      var keep := AlternativeFor(resource, evidence, missing, conflicts, Keep);
      var keepPolicy := Ask(resource, selectedTools, evidence, missing, keep,
                            RunVerifier(resource, evidence, conflicts, Keep), evaluate);
      Conclude(resource, selectedTools, executions, evidence, missing, Keep, keepPolicy)
    else
      Conclude(resource, selectedTools, executions, evidence, missing, preferred.action, policy)
  }

  /** `_recalculate_decision`: the hard block for a destructive change is waived when evidence had been requested. */
  function RecalculationBlocks(prior: Decision, resource: Resource): bool {
    (resource.destructive && prior.preferred != RequestEvidence) || resource.production
  }

  function RecalculatedChoice(prior: Decision, resource: Resource, evidence: seq<Item>): (r: Alternative)
    ensures r in GenerateAlternatives(resource, evidence, MissingFromEvidence(evidence), DetectConflicts(evidence))
    ensures r.action == ExpectedAction(resource, evidence, MissingFromEvidence(evidence), DetectConflicts(evidence),
                                       RecalculationBlocks(prior, resource))
  {
    var missing := MissingFromEvidence(evidence);
    var conflicts := DetectConflicts(evidence);
    SelectsExpected(resource, evidence, missing, conflicts, RecalculationBlocks(prior, resource));
    SelectPreferred(GenerateAlternatives(resource, evidence, missing, conflicts),
                    RecalculationBlocks(prior, resource)).value
  }

  function Recalculate(prior: Decision, resource: Resource, evidence: seq<Item>, executions: seq<Execution>,
                       evaluate: Evaluator): Decision {
    var missing := MissingFromEvidence(evidence);
    var preferred := RecalculatedChoice(prior, resource, evidence);
    var findings := RunVerifier(resource, evidence, DetectConflicts(evidence), preferred.action);
    var policy := Ask(resource, prior.selectedTools, evidence, missing, preferred, findings, evaluate);
    Conclude(resource, prior.selectedTools, executions, evidence, missing, preferred.action, policy)
  }

  /** The evaluator call inside `_modify`, for an alternative of the stored decision. */
  function ModifiedPolicy(decision: Decision, resource: Resource, alternative: Alternative,
                          evaluate: Evaluator): PolicyResult {
    var findings := RunVerifier(resource, decision.evidence, decision.conflicts, alternative.action);
    var plain := PlainPolicy(resource, decision.evidence, decision.missing, alternative.action, findings,
                             decision.conflicts);
    var provisional := CalculateConfidence(decision.evidence, decision.conflicts, plain, decision.selectedTools);
    evaluate(resource, decision.evidence, decision.missing, alternative, findings, decision.conflicts, provisional)
  }

  function Modified(decision: Decision, resource: Resource, alternative: Alternative, evaluate: Evaluator): Decision {
    var policy := ModifiedPolicy(decision, resource, alternative, evaluate);
    decision.(
      preferred := alternative.action,
      findings := RunVerifier(resource, decision.evidence, decision.conflicts, alternative.action),
      policy := policy,
      confidence := CalculateConfidence(decision.evidence, decision.conflicts, policy, decision.selectedTools),
      finalStatus := StatusOf(alternative.action, policy))
  }

  /** The deterministic policy as the evaluator's fallback runs it. */
  function PythonEvaluator(minimum: real): Evaluator {
    (resource, evidence, missing, preferred: Alternative, findings, conflicts, confidence: Breakdown) =>
      EvaluatePolicy(resource, evidence, missing, preferred.action, findings, conflicts,
                     OwnerKnown(resource, evidence), Some(confidence.final), minimum)
  }

  /** Stored parts of a decision agree with each other and with the resource. */
  predicate Coherent(resource: Resource, d: Decision) {
    && d.conflicts == DetectConflicts(d.evidence)
    && d.alternatives == GenerateAlternatives(resource, d.evidence, d.missing, d.conflicts)
    && d.findings == RunVerifier(resource, d.evidence, d.conflicts, d.preferred)
    && FirstWith(d.alternatives, d.preferred, false).Some?
    && d.finalStatus == StatusOf(d.preferred, d.policy)
  }

  lemma BuildIsCoherent(resource: Resource, conflicting: bool, selectedTools: seq<Source>, executions: seq<Execution>,
                        evidence: seq<Item>, missing: seq<Missing>, evaluate: Evaluator)
    ensures Coherent(resource,
                     BuildDecision(resource, conflicting, selectedTools, executions, evidence, missing, evaluate))
  {
    var keep := AlternativeFor(resource, evidence, missing, DetectConflicts(evidence), Keep);
  }

  lemma RecalculateIsCoherent(prior: Decision, resource: Resource, evidence: seq<Item>, executions: seq<Execution>,
                              evaluate: Evaluator)
    ensures Coherent(resource, Recalculate(prior, resource, evidence, executions, evaluate))
  {
  }

  lemma ModifiedIsCoherent(decision: Decision, resource: Resource, alternative: Alternative, evaluate: Evaluator)
    requires Coherent(resource, decision) && alternative in decision.alternatives
    ensures Coherent(resource, Modified(decision, resource, alternative, evaluate))
  {
  }

  /** Facts behind any first recommendation, whatever the policy evaluator answers. */
  predicate RecommendationFacts(resource: Resource, evidence: seq<Item>, missing: seq<Missing>,
                                conflicts: seq<Conflict>, action: Action) {
    && !resource.production && !ActiveDependencies(evidence) && !CriticalMissing(missing) && !HasHigh(conflicts)
    && (action == Downsize ==> DownsizeFacts(resource, evidence, conflicts))
    && (action == Schedule ==> SupportsIntermittentUse(evidence))
  }

  lemma ExpectedRemediationFacts(resource: Resource, evidence: seq<Item>, missing: seq<Missing>,
                                 conflicts: seq<Conflict>, hardBlock: bool)
    requires IsRemediation(ExpectedAction(resource, evidence, missing, conflicts, hardBlock))
    requires resource.production ==> hardBlock
    ensures RecommendationFacts(resource, evidence, missing, conflicts,
                                ExpectedAction(resource, evidence, missing, conflicts, hardBlock))
  {
  }

  lemma RecommendationIsEarned(resource: Resource, conflicting: bool, selectedTools: seq<Source>,
                               executions: seq<Execution>,
                               evidence: seq<Item>, missing: seq<Missing>, evaluate: Evaluator)
    ensures var d := BuildDecision(resource, conflicting, selectedTools, executions, evidence, missing, evaluate);
            d.finalStatus == RecommendationReady ==>
              && !conflicting && !resource.destructive && IsRemediation(d.preferred) && d.policy.allowed
              && RecommendationFacts(resource, evidence, missing, d.conflicts, d.preferred)
  {
    hide MustRequest, DownsizeFacts, ScheduleFacts, Rejections, Savings, DetectConflicts, RunVerifier;
    hide CalculateConfidence, PlainPolicy;
    var d := BuildDecision(resource, conflicting, selectedTools, executions, evidence, missing, evaluate);
    if d.finalStatus == RecommendationReady {
      assert d.preferred == InitialChoice(resource, conflicting, evidence, missing).action;
      ExpectedRemediationFacts(resource, evidence, missing, d.conflicts, HardBlocked(resource));
    }
  }

  /** A critical gap makes the first decision ask for evidence, whatever the evaluator answers. */
  lemma GapIsRequested(resource: Resource, conflicting: bool, selectedTools: seq<Source>, executions: seq<Execution>,
                       evidence: seq<Item>,
                       missing: seq<Missing>, evaluate: Evaluator)
    requires !resource.destructive && !resource.production && CriticalMissing(missing)
    ensures var d := BuildDecision(resource, conflicting, selectedTools, executions, evidence, missing, evaluate);
            d.preferred == RequestEvidence && (d.finalStatus == NeedsHumanContext || d.finalStatus == DecisionBlocked)
  {
    hide Ask, DetectConflicts, GenerateAlternatives, RunVerifier, CalculateConfidence;
  }

  /** A recalculation keeps those facts, except that a destructive change may get a schedule once evidence was
      requested. */
  lemma RecalculatedRecommendation(prior: Decision, resource: Resource, evidence: seq<Item>,
                                   executions: seq<Execution>, evaluate: Evaluator)
    ensures var d := Recalculate(prior, resource, evidence, executions, evaluate);
            d.finalStatus == RecommendationReady ==>
              && d.policy.allowed && RecommendationFacts(resource, evidence, d.missing, d.conflicts, d.preferred)
              && (resource.destructive ==> prior.preferred == RequestEvidence && d.preferred == Schedule)
  {
    hide RunVerifier, CalculateConfidence, PlainPolicy, GenerateAlternatives, MustRequest, DownsizeFacts;
    hide DetectConflicts, MissingFromEvidence;
    var missing, conflicts := MissingFromEvidence(evidence), DetectConflicts(evidence);
    if Recalculate(prior, resource, evidence, executions, evaluate).finalStatus == RecommendationReady {
      ExpectedRemediationFacts(resource, evidence, missing, conflicts, RecalculationBlocks(prior, resource));
      DownsizeNeedsNoBlock(resource, evidence, conflicts);
    }
  }

  lemma DownsizeNeedsNoBlock(resource: Resource, evidence: seq<Item>, conflicts: seq<Conflict>)
    ensures DownsizeFacts(resource, evidence, conflicts) ==> !HardBlocked(resource)
  {
  }

  /** Exactly when a recalculation recommends a destructive change. */
  lemma DestructiveRecommendationIff(prior: Decision, resource: Resource, evidence: seq<Item>,
                                     executions: seq<Execution>, evaluate: Evaluator)
    requires resource.destructive
    ensures var d := Recalculate(prior, resource, evidence, executions, evaluate);
            d.finalStatus == RecommendationReady <==>
              && prior.preferred == RequestEvidence && ScheduleFacts(resource, evidence)
              && !MustRequest(d.missing, d.conflicts) && !MayAbstain(evidence, d.missing, d.conflicts)
              && d.policy.allowed && d.policy.status != NeedsContext
  {
    hide RunVerifier, CalculateConfidence, PlainPolicy, GenerateAlternatives, MustRequest, MayAbstain, DownsizeFacts;
    hide DetectConflicts, MissingFromEvidence;
    DownsizeNeedsNoBlock(resource, evidence, DetectConflicts(evidence));
  }

  /** The Python policy closes that gap. */
  lemma PythonNeverRecommendsDestructive(prior: Decision, resource: Resource, evidence: seq<Item>,
                                         executions: seq<Execution>, minimum: real)
    requires resource.destructive
    ensures Recalculate(prior, resource, evidence, executions,
                        PythonEvaluator(minimum)).finalStatus != RecommendationReady
  {
    hide RunVerifier, CalculateConfidence, PlainPolicy, GenerateAlternatives, DetectConflicts, MissingFromEvidence;
    hide ExpectedAction;
    hide Blocking, ContextReasons, OwnerKnown, CriticalMissing, Claims, ActiveDependencies, LacksHeadroom, LacksSavings;
    var missing, conflicts := MissingFromEvidence(evidence), DetectConflicts(evidence);
    var action := RecalculatedChoice(prior, resource, evidence).action;
    if IsRemediation(action) {
      var findings := RunVerifier(resource, evidence, conflicts, action);
      var provisional := CalculateConfidence(evidence, conflicts,
                                             PlainPolicy(resource, evidence, missing, action, findings, conflicts),
                                             prior.selectedTools);
      RemediationAllowedIff(resource, evidence, missing, action, conflicts, OwnerKnown(resource, evidence),
                            Some(provisional.final), minimum);
    }
  }

  function KnownSources(evidence: seq<Item>): set<Source> {
    set e <- evidence :: e.source
  }

  function WithUnresolved(known: set<Source>, records: seq<Missing>, unresolved: seq<Source>): seq<Missing>
    decreases unresolved
  {
    if unresolved == [] then records
    else if unresolved[0] in known || exists m <- records :: m.source == unresolved[0] then
      WithUnresolved(known, records, unresolved[1..])
    else WithUnresolved(known, records + [Missing(unresolved[0], IsCritical(unresolved[0]))], unresolved[1..])
  }

  /** The engine's `_missing_from_evidence`: unavailable items, then sources planning never collected. */
  function MissingWithUnresolved(evidence: seq<Item>, unresolved: seq<Source>): seq<Missing> {
    WithUnresolved(KnownSources(evidence), MissingFromEvidence(evidence), unresolved)
  }

  method CollectMissing(evidence: seq<Item>, unresolved: seq<Source>) returns (records: seq<Missing>)
    ensures records == MissingWithUnresolved(evidence, unresolved)
  {
    records := MissingFromEvidence(evidence);
    var known := KnownSources(evidence);
    for i := 0 to |unresolved|
      invariant WithUnresolved(known, records, unresolved[i..]) == MissingWithUnresolved(evidence, unresolved)
    {
      var source := unresolved[i];
      assert unresolved[i..][1..] == unresolved[i + 1..];
      if source in known || exists m <- records :: m.source == source {
        continue;
      }
      records := records + [Missing(source, IsCritical(source))];
    }
  }

  lemma {:induction false} WithUnresolvedCritical(known: set<Source>, records: seq<Missing>, unresolved: seq<Source>)
    requires forall m <- records :: m.critical == IsCritical(m.source)
    ensures CriticalMissing(WithUnresolved(known, records, unresolved)) <==>
      CriticalMissing(records) || exists s <- unresolved :: IsCritical(s) && s !in known
    decreases unresolved
  {
    if unresolved != [] {
      var s := unresolved[0];
      var isNew := s !in known && !exists m <- records :: m.source == s;
      var next := if isNew then records + [Missing(s, IsCritical(s))] else records;
      WithUnresolvedCritical(known, next, unresolved[1..]);
      assert forall x <- unresolved :: x == s || x in unresolved[1..];
      assert forall x <- unresolved[1..] :: x in unresolved;
      if isNew {
        assert forall m <- next :: m in records || m == Missing(s, IsCritical(s));
        assert forall m <- records :: m in next;
        assert next[|records|] == Missing(s, IsCritical(s));
      }
    }
  }

  /** A critical gap is recorded exactly when critical evidence failed or was never collected. */
  lemma CriticalGapIff(evidence: seq<Item>, unresolved: seq<Source>)
    ensures CriticalMissing(MissingWithUnresolved(evidence, unresolved)) <==>
      UnavailableCritical(evidence) || exists s <- unresolved :: IsCritical(s) && s !in KnownSources(evidence)
  {
    WithUnresolvedCritical(KnownSources(evidence), MissingFromEvidence(evidence), unresolved);
    CriticalMissingIff(evidence);
  }

  lemma {:induction false} WithUnresolvedGrows(known: set<Source>, records: seq<Missing>, unresolved: seq<Source>)
    ensures |WithUnresolved(known, records, unresolved)| >= |records|
    ensures WithUnresolved(known, records, unresolved) == records <==>
      forall s <- unresolved :: s in known || exists m <- records :: m.source == s
    decreases unresolved
  {
    if unresolved != [] {
      var s := unresolved[0];
      var skip := s in known || exists m <- records :: m.source == s;
      WithUnresolvedGrows(known, if skip then records else records + [Missing(s, IsCritical(s))], unresolved[1..]);
      assert forall x <- unresolved :: x == s || x in unresolved[1..];
      assert forall x <- unresolved[1..] :: x in unresolved;
    }
  }
}
