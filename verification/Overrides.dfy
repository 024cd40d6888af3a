/** What comments and evidence requests can override in the runs the services produce (core/workflow_service.py,
    README.md of the repository on human context). */
module Overrides {
  import opened Wrappers
  import opened Evidence
  import opened ConflictDetector
  import opened AlternativeGenerator
  import opened Verifier
  import opened PolicyEngine
  import opened Confidence
  import opened ReasoningEngine
  import opened HumanContext
  import opened ReviewWorkflow
  import opened ReviewSafety
  import opened Comments
  import AIPlanner
  import Planner
  import PlanMerge

  // ----- what the planner leaves a protected resource -----

  /** The hard precheck collects nothing for a destructive or production resource and leaves nothing unresolved. */
  predicate Prechecked(resource: Resource, a: Analysis) {
    resource.destructive || resource.production ==> a.evidence == [] && a.missing == []
  }

  /** How a plan comes about: the deterministic one for what the run is about, and what a model proposed to add. */
  datatype PlanOrigin = PlanOrigin(context: Planner.Context, base: Planner.InvestigationPlan, enabled: bool,
                                   present: bool, reply: PlanMerge.PlanReply, clean: PlanMerge.Clean)

  function ToolsPlanned(p: PlanOrigin, registered: seq<Source>): seq<Source> {
    PlanMerge.Assisted(p.enabled, p.present, p.reply, p.base, registered, p.clean).selected
  }

  /** An analysis as the services issue it: on what the planner returned for the plan, for some model and tools. */
  ghost predicate FromPlanner(p: PlanOrigin, a: Analysis, model: AIPlanner.Model, tools: AIPlanner.Tools) {
    var r := AIPlanner.PlanResult(model, tools, p.context.resource, p.context.conflicting,
                                  ToolsPlanned(p, tools.registered));
    && Planner.Plans(p.context, tools.registered, p.base)
    && r.Some? && a.evidence == r.value.evidence && a.executions == r.value.executions
    && a.selectedTools == AIPlanner.Names(r.value.executions)
    && a.missing == MissingWithUnresolved(r.value.evidence, r.value.unresolved)
  }

  lemma PlannerPrechecks(p: PlanOrigin, a: Analysis, model: AIPlanner.Model, tools: AIPlanner.Tools)
    requires FromPlanner(p, a, model, tools)
    ensures Prechecked(p.context.resource, a)
  {
    hide AIPlanner.Investigate, AIPlanner.Complete, ToolsPlanned, Planner.Plans;
  }

  ghost predicate AllPrechecked(resource: Resource, steps: seq<Step>) {
    forall step <- steps :: step.Analyze? ==> Prechecked(resource, step.analysis)
  }

  // ----- destructive changes that asked for evidence -----

  predicate StillAsks(evidence: seq<Item>) {
    MustRequest(MissingFromEvidence(evidence), DetectConflicts(evidence))
  }

  /** A destructive change whose decision asks for evidence either still has to, or no project context is known. */
  predicate Unready(s: RunState) {
    s.resource.destructive && s.decision.Some? && s.decision.value.preferred == RequestEvidence ==>
      StillAsks(s.decision.value.evidence) || StatusOfJira(s.decision.value.evidence).None?
  }

  /** A recalculation asks for evidence only if its evidence calls for it. */
  lemma RecalculationAsksIff(prior: Decision, resource: Resource, evidence: seq<Item>, executions: seq<Execution>,
                             evaluate: Evaluator)
    ensures var d := Recalculate(prior, resource, evidence, executions, evaluate);
            d.evidence == evidence && (d.preferred == RequestEvidence ==> StillAsks(evidence))
  {
    hide RunVerifier, GenerateAlternatives, DetectConflicts, MissingFromEvidence, MustRequest, Ask;
  }

  lemma NoContextAtFirst(s: RunState, a: Analysis)
    requires Prechecked(s.resource, a)
    ensures Unready(s.(decision := Some(AnalysisDecision(s, a))))
  {
    hide BuildDecision, Recalculate, StillAsks;
    var d := BuildDecision(s.resource, s.conflicting, a.selectedTools, a.executions, a.evidence, a.missing, a.evaluate);
    BuiltOn(s.resource, s.conflicting, a.selectedTools, a.executions, a.evidence, a.missing, a.evaluate);
    RecalculationAsksIff(d, s.resource, d.evidence + [CONTEXT], d.executions, a.evaluate);
  }

  lemma BuiltOn(resource: Resource, conflicting: bool, selected: seq<Source>, executions: seq<Execution>,
                evidence: seq<Item>,
                missing: seq<Missing>, evaluate: Evaluator)
    ensures BuildDecision(resource, conflicting, selected, executions, evidence, missing, evaluate).evidence == evidence
  {
    hide Ask;
  }

  /** A modification never asks for evidence; the other plain actions leave the decision alone. */
  lemma OthersKeepDecision(s: RunState, request: Request, world: World)
    requires request.kind != AskEvidence && request.kind != AddContext && request.kind != AddFollowUpContext
    ensures var r := Act(s, request, world);
            r.Success? ==>
              && r.value.resource == s.resource
              && (r.value.decision == s.decision
                  || (r.value.decision.Some? && IsRemediation(r.value.decision.value.preferred)))
  {
    hide CanApprove, ModifiedPolicy, RunVerifier, CalculateConfidence, Log, PolicyKinds, FirstWith, MockPrFor, Repeat;
  }

  lemma RevisionKeepsResource(s: RunState, request: Request, world: World)
    requires request.kind == AskEvidence || request.kind == AddContext || request.kind == AddFollowUpContext
    ensures var r := Act(s, request, world);
            r.Success? ==>
              r.value.resource == s.resource && s.decision.Some?
              && r.value.decision == Some(RevisedBy(s, request, world))
                           && r.value.status == MapFinalStatus(RevisedBy(s, request, world).finalStatus)
  {
    hide Recalculate, Log, PolicyKinds, Repeat, Without;
  }

  lemma StepKeepsUnready(c: Case, step: Step)
    requires Unready(c.run) && (step.Analyze? ==> Prechecked(c.run.resource, step.analysis))
    ensures Unready(Next(c, step).run) && Next(c, step).run.resource == c.run.resource
  {
    hide Act, AnalysisDecision, Recalculate, StillAsks, Log, Repeat, ClosingKind, Without;
    if step.Analyze? {
      NoContextAtFirst(c.run, step.analysis);
    } else if step.HandleReview? {
      var request, world := step.request, step.world;
      if request.kind == AskEvidence || request.kind == AddContext || request.kind == AddFollowUpContext {
        RevisionKeepsResource(c.run, request, world);
        if c.run.decision.Some? {
          var d := c.run.decision.value;
          RecalculationAsksIff(d, c.run.resource, Without(d.evidence, request.sources) + world.gathered,
                               d.executions + world.records, world.evaluate);
          RecalculationAsksIff(d, c.run.resource, d.evidence + [CONTEXT], d.executions, world.evaluate);
        }
      } else {
        OthersKeepDecision(c.run, request, world);
      }
    }
  }

  lemma {:induction false} ReachableUnready(c: Case, steps: seq<Step>)
    requires Starting(c) && AllPrechecked(c.run.resource, steps)
    ensures Unready(Run(c, steps).run) && Run(c, steps).run.resource == c.run.resource
  {
    hide Next, Unready;
    if steps == [] {
      assert Unready(c.run) by { UndecidedIsUnready(c.run); }
    } else {
      var prefix, step := steps[..|steps| - 1], steps[|steps| - 1];
      assert step in steps && forall x <- prefix :: x in steps;
      ReachableUnready(c, prefix);
      StepKeepsUnready(Run(c, prefix), step);
    }
  }

  lemma UndecidedIsUnready(s: RunState)
    requires s.decision.None?
    ensures Unready(s)
  {
  }

  // ----- comments -----

  /** The critical checks of a recommended recalculation: only the proposed instance type can be missing. */
  lemma ReadyFailsIff(resource: Resource, d: Decision)
    requires IsRemediation(d.preferred) && !resource.destructive
    requires RecommendationFacts(resource, d.evidence, d.missing, DetectConflicts(d.evidence), d.preferred)
    ensures CriticalFailure(RunVerifier(resource, d.evidence, DetectConflicts(d.evidence), d.preferred))
            <==> d.preferred == Downsize && !resource.hasProposedType
  {
    hide RunVerifier, DetectConflicts, CriticalFailure, ItemBySource;
    CriticalFailureIff(resource, d.evidence, DetectConflicts(d.evidence), d.preferred);
    HighFromJiraGit(d.evidence);
    JiraGitClaimIff(d.evidence);
  }

  lemma HighFromJiraGit(evidence: seq<Item>)
    ensures JiraGitDisagree(evidence) ==> HasHigh(DetectConflicts(evidence))
  {
    hide RecentGitActivity;
    if JiraGitDisagree(evidence) { assert DetectConflicts(evidence)[0] == Conflict(JiraGitConflict, High); }
  }

  /** In every run the services produce, a comment overrides neither a production nor a destructive block, neither
      active dependencies nor a high conflict nor unavailable critical evidence: if the run is pending afterwards, none
      of them is there. The one critical check an evaluator could still wave through then is the proposed instance
      type's. */
  lemma CommentOverridesNothing(c: Case, steps: seq<Step>, request: Request, world: World)
    requires Starting(c) && AllPrechecked(c.run.resource, steps)
    requires request.kind == AddContext || request.kind == AddFollowUpContext
    ensures var r := Act(Run(c, steps).run, request, world);
            r.Success? && r.value.status == PendingHumanReview ==>
              var s := r.value;
              && s.decision.Some?
              && var d := s.decision.value;
                 && d.finalStatus == RecommendationReady
                 && !s.resource.production && !s.resource.destructive && !ActiveDependencies(d.evidence)
                 && !HasHigh(d.conflicts) && !UnavailableCritical(d.evidence)
                 && (CriticalFailure(d.findings) <==> d.preferred == Downsize && !s.resource.hasProposedType)
  {
    hide Act, Run, Recalculate, RunVerifier, DetectConflicts, CriticalFailure, StillAsks, MissingFromEvidence;
    hide ItemBySource, Unready, RecommendationFacts;
    var before := Run(c, steps).run;
    ReachableUnready(c, steps);
    RevisionKeepsResource(before, request, world);
    if before.decision.Some? {
      var prior := before.decision.value;
      CommentedReady(prior, before, world.evaluate);
    }
  }

  lemma CommentedReady(prior: Decision, s: RunState, evaluate: Evaluator)
    requires s.decision == Some(prior) && Unready(s)
    ensures var d := Commented(prior, s.resource, evaluate);
            d.finalStatus == RecommendationReady ==>
              && !s.resource.production && !s.resource.destructive && !ActiveDependencies(d.evidence)
              && !HasHigh(d.conflicts) && !UnavailableCritical(d.evidence)
              && (CriticalFailure(d.findings) <==> d.preferred == Downsize && !s.resource.hasProposedType)
  {
    hide Recalculate, RunVerifier, DetectConflicts, CriticalFailure, MustRequest, ItemBySource, DownsizeFacts;
    hide MissingFromEvidence;
    var evidence := prior.evidence + [CONTEXT];
    var d := Commented(prior, s.resource, evaluate);
    RecalculatedParts(prior, s.resource, evidence, prior.executions, evaluate);
    RecalculatedFindings(prior, s.resource, evidence, prior.executions, evaluate);
    RecalculatedRecommendation(prior, s.resource, evidence, prior.executions, evaluate);
    CriticalMissingIff(evidence);
    if d.finalStatus == RecommendationReady && s.resource.destructive {
      DestructiveRecommendationIff(prior, s.resource, evidence, prior.executions, evaluate);
      ContextAddsNoFacts(prior.evidence);
      SameReadings(evidence, prior.evidence);
      SameFactsSameConflicts(evidence, prior.evidence);
    }
    if d.finalStatus == RecommendationReady && !s.resource.destructive {
      ReadyFailsIff(s.resource, d);
    }
  }

  lemma RecalculatedFindings(prior: Decision, resource: Resource, evidence: seq<Item>, executions: seq<Execution>,
                             evaluate: Evaluator)
    ensures var d := Recalculate(prior, resource, evidence, executions, evaluate);
            && d.evidence == evidence
            && d.findings == RunVerifier(resource, evidence, DetectConflicts(evidence), d.preferred)
            && (d.finalStatus == RecommendationReady ==> IsRemediation(d.preferred))
  {
    hide RunVerifier, GenerateAlternatives, DetectConflicts, MissingFromEvidence, ExpectedAction, Ask;
  }

  /** A comment as a service step, of either kind. */
  predicate IsComment(step: Step) {
    && step.HandleReview? && step.expected.None? && step.request.hasContext
    && (step.request.kind == AddContext || step.request.kind == AddFollowUpContext)
  }

  predicate AllComments(steps: seq<Step>) {
    forall i | 0 <= i < |steps| :: IsComment(steps[i])
  }

  function EvaluatorsOf(steps: seq<Step>): (r: seq<Evaluator>)
    requires AllComments(steps)
    ensures |r| == |steps| && forall i | 0 <= i < |steps| :: r[i] == steps[i].world.evaluate
  {
    seq(|steps|, i requires 0 <= i < |steps| => steps[i].world.evaluate)
  }

  predicate Commentable(s: RunState) {
    s.decision.Some? && s.status != PrCreated && s.status != Rejected
  }

  lemma CommentIsAccepted(s: RunState, request: Request, world: World)
    requires Commentable(s) && request.hasContext && (request.kind == AddContext || request.kind == AddFollowUpContext)
    ensures var r := Act(s, request, world); r.Success? && |r.value.reviews| == |s.reviews| + 1
  {
    hide Recalculate, PolicyKinds;
  }

  lemma CommentStepApplies(c: Case, step: Step)
    requires Commentable(c.run) && IsComment(step)
    ensures var d := Commented(c.run.decision.value, c.run.resource, step.world.evaluate);
            var t := Next(c, step).run;
            && t.decision == Some(d) && t.status == MapFinalStatus(d.finalStatus) && Commentable(t)
            && t.resource == c.run.resource
            && |t.reviews| == |c.run.reviews| + 1
  {
    hide Recalculate, Act;
    CommentIsAccepted(c.run, step.request, step.world);
    RevisionKeepsResource(c.run, step.request, step.world);
  }

  /** Comments are never refused in a row: each one is applied, and the run ends with the decision, and outcome, that
      many comments settle. */
  lemma {:induction false} CommentsOnARun(c: Case, steps: seq<Step>)
    requires Commentable(c.run) && AllComments(steps)
    ensures var t := Run(c, steps).run;
            && Commentable(t) && t.resource == c.run.resource && |t.reviews| == |c.run.reviews| + |steps|
            && t.decision == Some(AfterComments(c.run.decision.value, c.run.resource, EvaluatorsOf(steps)))
            && SettledOn(t.decision.value, c.run.decision.value, c.run.resource, |steps|)
            && (steps != [] ==> t.status == MapFinalStatus(t.decision.value.finalStatus))
  {
    hide Next, Commented, Recalculate, SettledOn, Settled, IsComment;
    CommentsSettle(c.run.decision.value, c.run.resource, EvaluatorsOf(steps));
    if steps != [] {
      var prefix, step := steps[..|steps| - 1], steps[|steps| - 1];
      assert AllComments(prefix) && IsComment(step);
      CommentsOnARun(c, prefix);
      CommentStepApplies(Run(c, prefix), step);
      assert EvaluatorsOf(steps)[..|steps| - 1] == EvaluatorsOf(prefix);
    }
  }

  /** Under the Python policy such a run ends allowed exactly when the decision commented on passes with that many. */
  lemma PythonCommentsOnARun(c: Case, steps: seq<Step>, minimum: real)
    requires Commentable(c.run) && AllComments(steps) && steps != []
    requires EvaluatorsOf(steps) == PythonTimes(minimum, |steps|)
    ensures var t, d := Run(c, steps).run, c.run.decision.value;
            t.decision.Some? && (t.decision.value.policy.allowed <==> CommentsPass(d, c.run.resource, |steps|, minimum))
  {
    hide Run, AfterComments, CommentsPass, SettledOn, PythonEvaluator;
    CommentsOnARun(c, steps);
    CommentsAllowedIff(c.run.decision.value, c.run.resource, |steps|, minimum);
  }

  // ----- evidence requests -----

  /** What a lookup finds after an evidence request: requested sources are read from what was gathered alone. */
  lemma {:induction false} RequestedLookup(evidence: seq<Item>, sources: seq<Source>, gathered: seq<Item>,
                                           source: Source)
    ensures ItemBySource(Without(evidence, sources) + gathered, source)
         == if source !in sources && ItemBySource(evidence, source).Some? then ItemBySource(evidence, source)
            else ItemBySource(gathered, source)
  {
    if evidence == [] {
      assert Without(evidence, sources) + gathered == gathered;
    } else {
      RequestedLookup(evidence[1..], sources, gathered, source);
      var rest := Without(evidence[1..], sources) + gathered;
      if evidence[0].source !in sources {
        assert Without(evidence, sources) + gathered == [evidence[0]] + rest;
      } else {
        assert Without(evidence, sources) + gathered == rest;
      }
    }
  }

  /** The evaluator's answer to scheduling on the evidence at hand. */
  function ScheduleAnswer(d: Decision, resource: Resource, evidence: seq<Item>, evaluate: Evaluator): PolicyResult {
    var missing, conflicts := MissingFromEvidence(evidence), DetectConflicts(evidence);
    Ask(resource, d.selectedTools, evidence, missing, Proposal(Schedule, resource, evidence, missing, conflicts),
        RunVerifier(resource, evidence, conflicts, Schedule), evaluate)
  }

  /** When an evidence request makes a destructive change pending: the stored decision asked for evidence, and the
      stored evidence, with the requested sources replaced by what was gathered for them, supports a schedule the
      evaluator allows. */
  lemma EvidenceRequestLiftsBlockIff(s: RunState, request: Request, world: World)
    requires s.resource.destructive && s.decision.Some? && request.kind == AskEvidence
    ensures var d := s.decision.value;
            var evidence := Without(d.evidence, request.sources) + world.gathered;
            var answer := ScheduleAnswer(d, s.resource, evidence, world.evaluate);
            var r := Act(s, request, world);
            r.Success? ==>
              && r.value.decision.Some?
              && (r.value.status == PendingHumanReview ==> r.value.decision.value.preferred == Schedule)
              && (r.value.status == PendingHumanReview <==>
                    && d.preferred == RequestEvidence && !s.resource.production
                    && SupportsIntermittentUse(evidence) && !ActiveDependencies(evidence)
                    && !HasHigh(DetectConflicts(evidence)) && !UnavailableCritical(evidence)
                    && answer.allowed && answer.status != NeedsContext)
  {
    hide Act, Recalculate, ScheduleAnswer, DetectConflicts, MissingFromEvidence, SupportsIntermittentUse;
    hide ActiveDependencies, Without;
    RevisionKeepsResource(s, request, world);
    var d := s.decision.value;
    var evidence := Without(d.evidence, request.sources) + world.gathered;
    DestructiveScheduleIff(d, s.resource, evidence, d.executions + world.records, world.evaluate);
  }

  lemma DestructiveScheduleIff(prior: Decision, resource: Resource, evidence: seq<Item>, executions: seq<Execution>,
                               evaluate: Evaluator)
    requires resource.destructive
    ensures var d := Recalculate(prior, resource, evidence, executions, evaluate);
            var answer := ScheduleAnswer(prior, resource, evidence, evaluate);
            d.finalStatus == RecommendationReady <==>
              && prior.preferred == RequestEvidence && !resource.production
              && SupportsIntermittentUse(evidence) && !ActiveDependencies(evidence)
              && !HasHigh(DetectConflicts(evidence)) && !UnavailableCritical(evidence)
              && answer.allowed && answer.status != NeedsContext
    ensures var d := Recalculate(prior, resource, evidence, executions, evaluate);
            d.finalStatus == RecommendationReady ==> d.preferred == Schedule
  {
    hide Recalculate, DetectConflicts, MissingFromEvidence, SupportsIntermittentUse, ActiveDependencies, ScheduleAnswer;
    hide HasHigh, CriticalMissing;
    RecalculatedParts(prior, resource, evidence, executions, evaluate);
    RecalculatedRecommendation(prior, resource, evidence, executions, evaluate);
    DestructiveRecommendationIff(prior, resource, evidence, executions, evaluate);
    CriticalMissingIff(evidence);
    NoHighNoRequest(evidence);
    ScheduledAnswer(prior, resource, evidence, executions, evaluate);
  }

  lemma NoHighNoRequest(evidence: seq<Item>)
    ensures var missing, conflicts := MissingFromEvidence(evidence), DetectConflicts(evidence);
            !MustRequest(missing, conflicts) && !MayAbstain(evidence, missing, conflicts)
            <==> !ActiveDependencies(evidence) && !HasHigh(conflicts) && !CriticalMissing(missing)
  {
    hide DetectConflicts, MissingFromEvidence, ActiveDependencies;
  }

  /** The policy of a recalculation that prefers a schedule is the answer to that schedule. */
  lemma ScheduledAnswer(prior: Decision, resource: Resource, evidence: seq<Item>, executions: seq<Execution>,
                        evaluate: Evaluator)
    ensures var d := Recalculate(prior, resource, evidence, executions, evaluate);
            d.preferred == Schedule ==> d.policy == ScheduleAnswer(prior, resource, evidence, evaluate)
    ensures resource.destructive && prior.preferred == RequestEvidence && ScheduleFacts(resource, evidence)
            && !MustRequest(MissingFromEvidence(evidence), DetectConflicts(evidence))
            && !MayAbstain(evidence, MissingFromEvidence(evidence), DetectConflicts(evidence)) ==>
              Recalculate(prior, resource, evidence, executions, evaluate).preferred == Schedule
  {
    hide RunVerifier, CalculateConfidence, PlainPolicy, GenerateAlternatives, DetectConflicts, MissingFromEvidence;
    hide MustRequest, MayAbstain, Proposal;
    var missing, conflicts := MissingFromEvidence(evidence), DetectConflicts(evidence);
    var choice := RecalculatedChoice(prior, resource, evidence);
    GeneratedIff(resource, evidence, missing, conflicts, choice);
    DownsizeNeedsNoBlock(resource, evidence, conflicts);
  }
}
