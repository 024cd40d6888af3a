/** What context supplied by a reviewer can and cannot do to a decision
    (core/workflow_service.py, `_add_context` and `_recalculate_decision`). */
module HumanContext {
  import opened Wrappers
  import opened Evidence
  import opened ConflictDetector
  import opened AlternativeGenerator
  import opened Verifier
  import opened PolicyEngine
  import opened Confidence
  import opened ReasoningEngine

  /** The item `_add_context` appends: free text is no dictionary, so it carries no facts. */
  const CONTEXT := Item(HumanReview, Fresh, 1.0, None)

  function Contexts(count: nat): (r: seq<Item>)
    ensures |r| == count && forall i | 0 <= i < count :: r[i] == CONTEXT
  {
    seq(count, _ => CONTEXT)
  }

  const FACT_SOURCES := {Pricing, Utilization, Jira, GitActivity, Dependencies}

  /** Both evidence lists give the rules the same facts. */
  predicate SameFacts(a: seq<Item>, b: seq<Item>) {
    && (forall s <- FACT_SOURCES :: ItemBySource(a, s) == ItemBySource(b, s))
    && MissingFromEvidence(a) == MissingFromEvidence(b)
    && (LowReliability(a) <==> LowReliability(b))
  }

  lemma ContextAddsNoFacts(evidence: seq<Item>)
    ensures SameFacts(evidence + [CONTEXT], evidence)
  {
    forall s <- FACT_SOURCES ensures ItemBySource(evidence + [CONTEXT], s) == ItemBySource(evidence, s) {
      LookupSkipsOther(evidence, [CONTEXT], s);
    }
    MissingSkipsAvailable(evidence, [CONTEXT]);
    if LowReliability(evidence) {
      var e :| e in evidence && e.freshness != Unavailable && e.reliability < RELIABILITY_THRESHOLD;
      assert e in evidence + [CONTEXT];
    }
  }

  /** The confidence `Recalculate` hands to the policy evaluator. */
  function Provisional(prior: Decision, resource: Resource, evidence: seq<Item>): Breakdown {
    var missing, conflicts := MissingFromEvidence(evidence), DetectConflicts(evidence);
    var action := RecalculatedChoice(prior, resource, evidence).action;
    var findings := RunVerifier(resource, evidence, conflicts, action);
    CalculateConfidence(evidence, conflicts, PlainPolicy(resource, evidence, missing, action, findings, conflicts),
                        prior.selectedTools)
  }

  /** Everything about a recalculation that the evaluator does not decide. */
  predicate SameOutcome(a: Decision, b: Decision) {
    && a.conflicts == b.conflicts && a.missing == b.missing && a.alternatives == b.alternatives
    && a.preferred == b.preferred && a.findings == b.findings
  }

  /** The derived readings agree too. */
  lemma SameReadings(a: seq<Item>, b: seq<Item>)
    requires SameFacts(a, b)
    ensures StatusOfJira(a) == StatusOfJira(b) && RecentGitActivity(a) == RecentGitActivity(b)
    ensures AverageCpu(a) == AverageCpu(b) && PeakCpu(a) == PeakCpu(b)
    ensures ActiveDependencies(a) == ActiveDependencies(b) && MonthlySavings(a) == MonthlySavings(b)
    ensures ValueFor(a, Jira).issueKey == ValueFor(b, Jira).issueKey
    ensures SourceUnavailable(a, Pricing) == SourceUnavailable(b, Pricing) && LacksSavings(a) == LacksSavings(b)
    ensures forall s <- FACT_SOURCES :: ItemBySource(a, s) == ItemBySource(b, s)
  {
    assert forall s <- FACT_SOURCES :: ValueFor(a, s) == ValueFor(b, s);
    assert {Utilization, Jira, GitActivity, Dependencies, Pricing} == FACT_SOURCES;
  }

  lemma SameFactsSameConflicts(a: seq<Item>, b: seq<Item>)
    requires SameFacts(a, b)
    ensures DetectConflicts(a) == DetectConflicts(b)
  {
    hide When, StatusOfJira, RecentGitActivity, AverageCpu, PeakCpu, ActiveDependencies, StaleItem, ItemBySource;
    SameReadings(a, b);
    assert Utilization in FACT_SOURCES && Dependencies in FACT_SOURCES;
  }

  lemma SameFactsSameProposal(resource: Resource, a: seq<Item>, b: seq<Item>, missing: seq<Missing>,
                              conflicts: seq<Conflict>, action: Action)
    requires SameFacts(a, b)
    ensures Proposal(action, resource, a, missing, conflicts) == Proposal(action, resource, b, missing, conflicts)
  {
    hide When, StatusOfJira, RecentGitActivity, AverageCpu, PeakCpu, ActiveDependencies, MonthlySavings;
    hide SourceUnavailable, CpuRejections, ItemBySource;
    SameReadings(a, b);
    assert Utilization in FACT_SOURCES;
  }

  lemma SameFactsSameFindings(resource: Resource, a: seq<Item>, b: seq<Item>, conflicts: seq<Conflict>, action: Action)
    requires SameFacts(a, b)
    ensures RunVerifier(resource, a, conflicts, action) == RunVerifier(resource, b, conflicts, action)
  {
    hide Graded, PeakCpu, ActiveDependencies, MonthlySavings, LacksSavings, StaleItem, ItemBySource, LowReliability;
    SameReadings(a, b);
    assert Utilization in FACT_SOURCES && Jira in FACT_SOURCES;
  }

  lemma SameFactsSameBlocking(resource: Resource, a: seq<Item>, b: seq<Item>, missing: seq<Missing>, action: Action,
                              findings: seq<Finding>, owner: bool, confidence: Option<real>, minimum: real)
    requires SameFacts(a, b)
    ensures Blocking(resource, a, missing, action, findings, owner, confidence, minimum)
         == Blocking(resource, b, missing, action, findings, owner, confidence, minimum)
    ensures OwnerKnown(resource, a) == OwnerKnown(resource, b)
  {
    hide When, AverageCpu, PeakCpu, ActiveDependencies, MonthlySavings, CriticalMissing, CriticalFailure;
    SameReadings(a, b);
  }

  lemma {:induction false} SameFactsSameProposals(actions: seq<Action>, resource: Resource, a: seq<Item>, b: seq<Item>,
                                                  missing: seq<Missing>, conflicts: seq<Conflict>)
    requires SameFacts(a, b)
    ensures Proposals(actions, resource, a, missing, conflicts) == Proposals(actions, resource, b, missing, conflicts)
  {
    if actions != [] {
      SameFactsSameProposal(resource, a, b, missing, conflicts, actions[0]);
      SameFactsSameProposals(actions[1..], resource, a, b, missing, conflicts);
    }
  }

  /** One context item: the rules' outcome is the same and the provisional confidence is no lower. */
  lemma ContextStep(prior: Decision, resource: Resource, evidence: seq<Item>, executions: seq<Execution>,
                    evaluate: Evaluator)
    ensures SameOutcome(Recalculate(prior, resource, evidence + [CONTEXT], executions, evaluate),
                        Recalculate(prior, resource, evidence, executions, evaluate))
    ensures Provisional(prior, resource, evidence + [CONTEXT]).final >= Provisional(prior, resource, evidence).final
  {
    hide Blocking, Rejections, Savings, RunVerifier, CalculateConfidence, ExpectedAction, SelectByPriority;
    hide DetectConflicts, MissingFromEvidence, OwnerKnown, ContextReasons;
    var more := evidence + [CONTEXT];
    ContextAddsNoFacts(evidence);
    var missing, conflicts := MissingFromEvidence(evidence), DetectConflicts(evidence);
    var action := RecalculatedChoice(prior, resource, evidence).action;
    SameFactsSameProposals(GeneratedActions(resource), resource, more, evidence, missing, conflicts);
    var findings := RunVerifier(resource, evidence, conflicts, action);
    SameFactsSameConflicts(more, evidence);
    SameFactsSameFindings(resource, more, evidence, conflicts, action);
    SameFactsSameBlocking(resource, more, evidence, missing, action, findings, true, None, 0.7);
    FreshItemNeverLowers(evidence, CONTEXT, conflicts,
                         PlainPolicy(resource, evidence, missing, action, findings, conflicts), prior.selectedTools);
  }

  /** Within one recalculation, any number of context items leaves the rules' outcome alone and never lowers the
      provisional confidence. */
  lemma {:induction false} SameOutcomeWithContexts(prior: Decision, resource: Resource, evidence: seq<Item>,
                                                    count: nat,
                                                    executions: seq<Execution>, evaluate: Evaluator)
    ensures SameOutcome(Recalculate(prior, resource, evidence + Contexts(count), executions, evaluate),
                        Recalculate(prior, resource, evidence, executions, evaluate))
    ensures Provisional(prior, resource, evidence + Contexts(count)).final
            >= Provisional(prior, resource, evidence).final
  {
    hide Recalculate, Provisional;
    if count == 0 {
      assert evidence + Contexts(count) == evidence;
    } else {
      SameOutcomeWithContexts(prior, resource, evidence, count - 1, executions, evaluate);
      var fewer := evidence + Contexts(count - 1);
      assert fewer + [CONTEXT] == evidence + Contexts(count);
      ContextStep(prior, resource, fewer, executions, evaluate);
    }
  }

  lemma {:induction false} ManyContextsAddNoFacts(evidence: seq<Item>, count: nat)
    ensures SameFacts(evidence + Contexts(count), evidence)
  {
    if count == 0 {
      assert evidence + Contexts(count) == evidence;
    } else {
      ManyContextsAddNoFacts(evidence, count - 1);
      assert evidence + Contexts(count - 1) + [CONTEXT] == evidence + Contexts(count);
      ContextAddsNoFacts(evidence + Contexts(count - 1));
    }
  }

  /** A recalculation forgets a critical gap exactly when the gap is a source planning never collected: unlike the
      first decision, it rebuilds the missing list from the evidence alone. */
  lemma RecalculationForgetsIff(prior: Decision, resource: Resource, evidence: seq<Item>, unresolved: seq<Source>,
                                executions: seq<Execution>,
                                evaluate: Evaluator)
    ensures CriticalMissing(MissingWithUnresolved(evidence, unresolved))
            && !CriticalMissing(Recalculate(prior, resource, evidence + [CONTEXT], executions, evaluate).missing)
       <==> !UnavailableCritical(evidence) && exists s <- unresolved :: IsCritical(s) && s !in KnownSources(evidence)
  {
    hide RunVerifier, CalculateConfidence, ExpectedAction, SelectByPriority, DetectConflicts, WithUnresolved;
    CriticalGapIff(evidence, unresolved);
    ContextAddsNoFacts(evidence);
    CriticalMissingIff(evidence);
  }

  lemma RecalculatedParts(prior: Decision, resource: Resource, evidence: seq<Item>, executions: seq<Execution>,
                          evaluate: Evaluator)
    ensures var d := Recalculate(prior, resource, evidence, executions, evaluate);
            d.missing == MissingFromEvidence(evidence) && d.conflicts == DetectConflicts(evidence)
  {
  }
}
