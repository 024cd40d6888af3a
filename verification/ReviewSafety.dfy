/** What every reachable state of a run keeps, for any reviewers, any policy evaluator and any order of steps. */
module ReviewSafety {
  import opened Wrappers
  import opened Evidence
  import opened ConflictDetector
  import opened AlternativeGenerator
  import opened Verifier
  import opened PolicyEngine
  import opened Confidence
  import opened ReasoningEngine
  import opened HumanContext
  import opened ReviewWorkflow

  datatype Step =
    | Analyze(analysis: Analysis)
    | Skip
    | HandleReview(expected: Option<nat>, request: Request, world: World)
    | Cancel

  /** A stored run, and whether the service call that created it has issued its one analysis update. Other callers may
      act between the creation and that update. */
  datatype Case = Case(run: RunState, analyzed: bool)

  predicate Starting(c: Case) {
    && !c.analyzed && c.run.status == Created && c.run.decision.None? && c.run.reviews == []
    && c.run.mockPr.None? && c.run.realPr.None? && Consecutive(c.run.audit)
  }

  /** One store update: a refused step raises and stores nothing, an applied one adds one to the version. */
  function Attempt(c: Case, step: Step): Result<Case, Refusal> {
    match step
    case Analyze(a) =>
      if c.analyzed then Failure(WrongState) else Success(Case(Stored(c.run, AnalyzeRun(c.run, a)), true))
    case Skip => if c.analyzed then Failure(WrongState) else Success(Case(Stored(c.run, SkipRun(c.run)), true))
    case HandleReview(expected, request, world) =>
      var r := ReviewRun(c.run, expected, request, world);
      if r.Failure? then Failure(r.error) else Success(c.(run := Stored(c.run, r.value)))
    case Cancel =>
      var r := CancelRun(c.run);
      if r.Failure? then Failure(r.error) else Success(c.(run := Stored(c.run, r.value)))
  }

  function Stored(before: RunState, after: RunState): RunState {
    after.(version := before.version + 1)
  }

  function Next(c: Case, step: Step): Case {
    var r := Attempt(c, step);
    if r.Success? then r.value else c
  }

  function Run(c: Case, steps: seq<Step>): Case {
    if steps == [] then c else Next(Run(c, steps[..|steps| - 1]), steps[|steps| - 1])
  }

  // ----- the safety invariant -----

  /** An open pull request rests on an approval of a decision whose recorded facts defend it. */
  predicate ApprovedSafely(s: RunState) {
    && s.decision.Some? && s.reviews != [] && s.reviews[|s.reviews| - 1].kind == Approve
    && (s.mockPr.Some? || s.realPr.Some?)
    && var d := s.decision.value;
       && IsRemediation(d.preferred) && d.policy.allowed && d.policy.requiresApproval
       && Defensible(s.resource, d.evidence, DetectConflicts(d.evidence), d.preferred)
       && !JiraGitDisagree(d.evidence)
  }

  predicate Invariant(c: Case) {
    var s := c.run;
    && (s.decision.Some? ==> Coherent(s.resource, s.decision.value))
    && (s.status == PrCreated ==> ApprovedSafely(s))
    && s.status != Approved
    && (s.status == PendingHumanReview ==> s.decision.Some?)
    && Consecutive(s.audit)
    && (!c.analyzed ==> s.decision.None? && s.reviews == [] && (s.status == Created || s.status == Canceled))
  }

  lemma GuardedDecisionIsDefensible(resource: Resource, d: Decision)
    requires Coherent(resource, d) && IsRemediation(d.preferred) && !CriticalFailure(d.findings)
    ensures Defensible(resource, d.evidence, DetectConflicts(d.evidence), d.preferred) && !JiraGitDisagree(d.evidence)
  {
    hide RunVerifier, GenerateAlternatives, DetectConflicts, CriticalFailure;
    CriticalFailureIff(resource, d.evidence, d.conflicts, d.preferred);
    JiraGitClaimIff(d.evidence);
  }

  lemma ApprovalIsSafe(s: RunState, request: Request, world: World)
    requires s.decision.Some? && Coherent(s.resource, s.decision.value)
    requires request.kind == Approve
    ensures var r := ApproveRun(s, request, world);
            r.Success? && r.value.status == PrCreated ==> ApprovedSafely(r.value) && CanApprove(s).None?
  {
    hide Coherent, Defensible, DetectConflicts, CriticalFailure, JiraGitDisagree, Log, MockPrFor, Repeat;
    var d := s.decision.value;
    if CanApprove(s).None? {
      GuardedDecisionIsDefensible(s.resource, d);
    }
  }

  lemma AnalysisIsCoherent(s: RunState, a: Analysis)
    ensures Coherent(s.resource, AnalysisDecision(s, a))
  {
    hide Coherent, BuildDecision, Recalculate;
    BuildIsCoherent(s.resource, s.conflicting, a.selectedTools, a.executions, a.evidence, a.missing, a.evaluate);
    var d := BuildDecision(s.resource, s.conflicting, a.selectedTools, a.executions, a.evidence, a.missing, a.evaluate);
    RecalculateIsCoherent(d, s.resource, d.evidence + [CONTEXT], d.executions, a.evaluate);
  }

  predicate Extends(s: RunState, t: RunState) {
    && s.audit <= t.audit && s.reviews <= t.reviews && s.version <= t.version
    && (s.mockPr.Some? ==> t.mockPr == s.mockPr)
    && t.resource == s.resource && t.key == s.key && t.organization == s.organization
    && t.github == s.github && t.readOnly == s.readOnly
  }

  /** What an applied action owes the invariant and the run's history. */
  predicate Keeps(s: RunState, r: RunState, request: Request) {
    && Extends(s, r) && r.version == s.version
    && r.reviews == s.reviews + [Review(request.kind, request.reviewer)]
    && (Consecutive(s.audit) ==> Consecutive(r.audit))
    && (s.decision.Some? <==> r.decision.Some?)
    && (r.decision.Some? ==> Coherent(s.resource, r.decision.value))
    && (r.status == PendingHumanReview ==> r.decision.Some?)
    && r.status != Approved
    && (r.status == PrCreated ==> ApprovedSafely(r))
  }

  lemma ApproveKeeps(s: RunState, request: Request, world: World)
    requires s.decision.Some? ==> Coherent(s.resource, s.decision.value)
    requires request.kind == Approve
    ensures var r := ApproveRun(s, request, world); r.Success? ==> Keeps(s, r.value, request)
  {
    hide Coherent, Log, ApprovedSafely, MockPrFor, Repeat, CriticalFailure;
    if s.decision.Some? {
      ApprovalIsSafe(s, request, world);
    }
  }

  lemma RecalculatingKeeps(s: RunState, request: Request, world: World)
    requires s.decision.Some? ==> Coherent(s.resource, s.decision.value)
    ensures var r := AskEvidenceRun(s, request, world); r.Success? ==> Keeps(s, r.value, request)
    ensures var r := AddContextRun(s, request, world); r.Success? ==> Keeps(s, r.value, request)
  {
    hide Coherent, Recalculate, Log, ApprovedSafely, PolicyKinds, Repeat, Without;
    if s.decision.Some? {
      var d := s.decision.value;
      RecalculateIsCoherent(d, s.resource, Without(d.evidence, request.sources) + world.gathered,
                            d.executions + world.records, world.evaluate);
      RecalculateIsCoherent(d, s.resource, d.evidence + [CONTEXT], d.executions, world.evaluate);
    }
  }

  lemma ModifyKeeps(s: RunState, request: Request, world: World)
    requires s.decision.Some? ==> Coherent(s.resource, s.decision.value)
    ensures var r := ModifyRun(s, request, world); r.Success? ==> Keeps(s, r.value, request)
  {
    hide Coherent, Modified, Log, ApprovedSafely, PolicyKinds, Repeat, GenerateAlternatives;
    if s.decision.Some? && request.modified.Some? {
      var d := s.decision.value;
      var alternative := FirstWith(d.alternatives, request.modified.value, false);
      if alternative.Some? {
        ModifiedIsCoherent(d, s.resource, alternative.value, world.evaluate);
      }
    }
  }

  lemma ActKeeps(s: RunState, request: Request, world: World)
    requires s.decision.Some? ==> Coherent(s.resource, s.decision.value)
    requires s.status == PendingHumanReview ==> s.decision.Some?
    ensures var r := Act(s, request, world); r.Success? ==> Keeps(s, r.value, request)
  {
    hide ApproveRun, AskEvidenceRun, AddContextRun, ModifyRun, Log, Coherent, ApprovedSafely;
    match request.kind
    case Approve => ApproveKeeps(s, request, world);
    case AskEvidence => RecalculatingKeeps(s, request, world);
    case AddContext => RecalculatingKeeps(s, request, world);
    case AddFollowUpContext => RecalculatingKeeps(s, request, world);
    case Modify => ModifyKeeps(s, request, world);
    case _ =>
  }

  /** An applied step only extends the run's history and adds one version. */
  lemma StepExtends(c: Case, step: Step)
    requires Invariant(c)
    ensures Attempt(c, step).Success? ==>
      && Extends(c.run, Next(c, step).run) && Next(c, step).run.version == c.run.version + 1
      && Next(c, step).run.reviews
         == c.run.reviews + (if step.HandleReview? then [Review(step.request.kind, step.request.reviewer)] else [])
  {
    hide Coherent, ApprovedSafely, Consecutive, Act, AnalysisDecision, Repeat, ClosingKind;
    if step.HandleReview? {
      ActKeeps(c.run, step.request, step.world);
    }
  }

  lemma StepKeepsInvariant(c: Case, step: Step)
    requires Invariant(c)
    ensures Invariant(Next(c, step))
    ensures Attempt(c, step).Success? ==>
      && Extends(c.run, Next(c, step).run) && Next(c, step).run.version == c.run.version + 1
      && Next(c, step).run.reviews
         == c.run.reviews + (if step.HandleReview? then [Review(step.request.kind, step.request.reviewer)] else [])
  {
    hide Invariant, Extends, Act, AnalyzeRun, SkipRun, CancelRun;
    StepExtends(c, step);
    match step
    case Analyze(a) =>
      if !c.analyzed {
        AnalysisKeepsInvariant(c, a);
        InvariantIgnoresVersion(Case(AnalyzeRun(c.run, a), true), c.run.version + 1);
      }
    case Skip =>
      if !c.analyzed {
        SkipKeepsInvariant(c);
        InvariantIgnoresVersion(Case(SkipRun(c.run), true), c.run.version + 1);
      }
    case HandleReview(_, request, world) =>
      ActionKeepsInvariant(c, request, world);
      var r := Act(c.run, request, world);
      if r.Success? { InvariantIgnoresVersion(Case(r.value, c.analyzed), c.run.version + 1); }
    case Cancel =>
      CancelKeepsInvariant(c);
      var r := CancelRun(c.run);
      if r.Success? { InvariantIgnoresVersion(Case(r.value, c.analyzed), c.run.version + 1); }
  }

  /** Between creation and analysis only a cancellation can be applied: every review action is refused. */
  lemma NothingToReview(c: Case, request: Request, world: World)
    requires Invariant(c) && !c.analyzed
    ensures Act(c.run, request, world).Failure?
  {
    hide Coherent, ApprovedSafely, Recalculate, Modified, Log, Consecutive;
  }

  lemma InvariantIgnoresVersion(c: Case, version: nat)
    requires Invariant(c)
    ensures Invariant(c.(run := c.run.(version := version)))
  {
    hide Coherent, ApprovedSafely, Consecutive;
    SafetyIgnoresVersion(c.run, version);
  }

  lemma SafetyIgnoresVersion(s: RunState, version: nat)
    requires s.status == PrCreated ==> ApprovedSafely(s)
    ensures s.status == PrCreated ==> ApprovedSafely(s.(version := version))
  {
    hide Defensible, JiraGitDisagree, DetectConflicts;
  }

  /** An applied review action keeps the invariant before the store stamps the new version. */
  lemma ActionKeepsInvariant(c: Case, request: Request, world: World)
    requires Invariant(c)
    ensures var r := Act(c.run, request, world); r.Success? ==> Invariant(Case(r.value, c.analyzed))
  {
    hide Coherent, ApprovedSafely, Consecutive, Act;
    ActKeeps(c.run, request, world);
    if !c.analyzed { NothingToReview(c, request, world); }
  }

  lemma CancelKeepsInvariant(c: Case)
    requires Invariant(c)
    ensures var r := CancelRun(c.run); r.Success? ==> Invariant(Case(r.value, c.analyzed))
  {
    hide Coherent, ApprovedSafely, Consecutive, Log;
  }

  lemma AnalysisKeepsInvariant(c: Case, a: Analysis)
    requires Invariant(c) && !c.analyzed
    ensures Invariant(Case(AnalyzeRun(c.run, a), true))
  {
    hide Coherent, ApprovedSafely, Consecutive, AnalysisDecision, Repeat, ClosingKind, Log;
    AnalysisIsCoherent(c.run, a);
  }

  lemma SkipKeepsInvariant(c: Case)
    requires Invariant(c) && !c.analyzed
    ensures Invariant(Case(SkipRun(c.run), true))
  {
    hide Coherent, ApprovedSafely, Consecutive, Log;
  }

  lemma {:induction false} ReachableInvariant(c: Case, steps: seq<Step>)
    requires Starting(c)
    ensures Invariant(Run(c, steps))
  {
    if steps != [] {
      ReachableInvariant(c, steps[..|steps| - 1]);
      StepKeepsInvariant(Run(c, steps[..|steps| - 1]), steps[|steps| - 1]);
    }
  }

  /** Safety: a run showing an open pull request was approved last, on a non-production, non-destructive resource with
      no reported active dependency and no Jira/Git disagreement. */
  lemma OpenPullRequestIsSafe(c: Case, steps: seq<Step>)
    requires Starting(c)
    ensures var s := Run(c, steps).run;
            s.status == PrCreated ==>
              && s.reviews != [] && s.reviews[|s.reviews| - 1].kind == Approve && s.decision.Some?
              && (s.mockPr.Some? || s.realPr.Some?)
              && var d := s.decision.value;
                 && (d.preferred == Downsize || d.preferred == Schedule)
                 && !s.resource.production && !s.resource.destructive
                 && !ActiveDependencies(d.evidence) && !JiraGitDisagree(d.evidence)
                 && (d.preferred == Downsize ==>
                       !LacksHeadroom(d.evidence) && !LacksSavings(d.evidence) && s.resource.hasProposedType)
    ensures Run(c, steps).run.status != Approved
  {
    hide Coherent, Consecutive, RunVerifier, GenerateAlternatives, DetectConflicts, JiraGitDisagree, LacksHeadroom;
    hide LacksSavings;
    ReachableInvariant(c, steps);
  }

  /** What an applied approval writes into the simulated pull request: the preferred action, and for downsizing the
      positive savings on record. A schedule's figure is half the savings, but falls back to the whole difference when
      there is none to halve, so it is negative exactly when the proposed type costs more. */
  lemma SimulatedPrTells(s: RunState, request: Request, world: World)
    requires s.decision.Some? && Coherent(s.resource, s.decision.value) && request.kind == Approve
    ensures var r := ApproveRun(s, request, world);
            var d := s.decision.value;
            r.Success? && r.value.mockPr.Some? ==>
              var pr := r.value.mockPr.value;
              && pr.action == d.preferred && pr.number == world.prNumber
              && (pr.action == Downsize ==> pr.monthlySavings == MonthlySavings(d.evidence) > 0.0)
              && (pr.action == Schedule ==>
                    && (pr.monthlySavings > 0.0 ==> pr.monthlySavings * 2.0 == MonthlySavings(d.evidence))
                    && (pr.monthlySavings < 0.0 <==> MonthlySavings(d.evidence) < 0.0))
  {
    hide Log, Repeat, RunVerifier, GenerateAlternatives, DetectConflicts, CriticalFailure, Rejections, MonthlySavings;
    hide JiraGitDisagree;
    hide LacksHeadroom, ActiveDependencies, Claims;
    var d := s.decision.value;
    if CanApprove(s).None? {
      GuardedDecisionIsDefensible(s.resource, d);
      var alternative := FirstWith(d.alternatives, d.preferred, false);
      GeneratedIff(s.resource, d.evidence, d.missing, d.conflicts, alternative.value);
    }
  }

  // ----- what only grows, and what is set once -----

  /** Steps of the sequence that were applied, and how many of those were reviews. */
  function Applied(c: Case, steps: seq<Step>, reviewsOnly: bool): nat {
    if steps == [] then 0
    else
      var before := Run(c, steps[..|steps| - 1]);
      var step := steps[|steps| - 1];
      Applied(c, steps[..|steps| - 1], reviewsOnly)
      + if Attempt(before, step).Success? && (reviewsOnly ==> step.HandleReview?) then 1 else 0
  }

  /** The version counts the applied steps, the review log the applied reviews. */
  lemma {:induction false} HistoryCountsSteps(c: Case, steps: seq<Step>)
    requires Starting(c)
    ensures Run(c, steps).run.version == c.run.version + Applied(c, steps, false)
    ensures |Run(c, steps).run.reviews| == Applied(c, steps, true)
    ensures Consecutive(Run(c, steps).run.audit)
  {
    hide Attempt, Coherent, ApprovedSafely, Extends, Consecutive;
    ReachableInvariant(c, steps);
    if steps != [] {
      var prefix := steps[..|steps| - 1];
      HistoryCountsSteps(c, prefix);
      ReachableInvariant(c, prefix);
      StepKeepsInvariant(Run(c, prefix), steps[|steps| - 1]);
    }
  }

  /** Over any continuation the audit and review logs only extend, and a simulated pull request once set never changes
      and bars every further approval. */
  lemma {:induction false} HistoryOnlyGrows(c: Case, steps: seq<Step>, more: seq<Step>)
    requires Starting(c)
    ensures Extends(Run(c, steps).run, Run(c, steps + more).run)
    ensures Run(c, steps).run.mockPr.Some? ==> CanApprove(Run(c, steps + more).run).Some?
  {
    hide Attempt, Coherent, ApprovedSafely, Consecutive, CriticalFailure;
    if more == [] {
      assert steps + more == steps;
    } else {
      var prefix, step := more[..|more| - 1], more[|more| - 1];
      assert (steps + more)[..|steps + more| - 1] == steps + prefix;
      HistoryOnlyGrows(c, steps, prefix);
      ReachableInvariant(c, steps + prefix);
      StepKeepsInvariant(Run(c, steps + prefix), step);
    }
  }

  // ----- progress -----

  /** A pending run carries an allowed remediation. */
  predicate PendingIsAllowed(s: RunState) {
    s.status == PendingHumanReview ==>
      s.decision.Some? && s.decision.value.policy.allowed && IsRemediation(s.decision.value.preferred)
  }

  lemma StepKeepsPending(c: Case, step: Step)
    requires PendingIsAllowed(c.run)
    ensures PendingIsAllowed(Next(c, step).run)
  {
    hide Act, AnalysisDecision, Log, Repeat, ClosingKind;
    if step.Analyze? {
      ReadyIsAllowed(c.run, step.analysis);
    } else if step.HandleReview? {
      ActKeepsPending(c.run, step.request, step.world);
    }
  }

  /** An applied approval, rejection, revocation or reopening leaves the run no longer pending. */
  lemma PlainActionsNeverPend(s: RunState, request: Request, world: World)
    requires request.kind == Approve || request.kind == Reject || request.kind == RevokeApproval
             || request.kind == ReopenCase
    ensures var r := Act(s, request, world); r.Success? ==> r.value.status != PendingHumanReview
  {
    hide CanApprove, Log, MockPrFor, Repeat;
  }

  /** The decision an applied evidence request or context comment stores. */
  function RevisedBy(s: RunState, request: Request, world: World): Decision
    requires s.decision.Some?
  {
    var d := s.decision.value;
    if request.kind == AskEvidence then
      Recalculate(d, s.resource, Without(d.evidence, request.sources) + world.gathered, d.executions + world.records,
                  world.evaluate)
    else Recalculate(d, s.resource, d.evidence + [CONTEXT], d.executions, world.evaluate)
  }

  /** After an evidence request or a context comment, a run is pending only with a ready decision. */
  lemma RevisedPends(s: RunState, request: Request, world: World)
    requires request.kind == AskEvidence || request.kind == AddContext || request.kind == AddFollowUpContext
    ensures var r := Act(s, request, world);
            r.Success? ==>
              var d := RevisedBy(s, request, world);
              && s.decision.Some? && r.value.decision == Some(d)
              && (r.value.status == PendingHumanReview ==> d.finalStatus == RecommendationReady)
  {
    hide Recalculate, Log, PolicyKinds, Repeat, Without;
  }

  lemma ActKeepsPending(s: RunState, request: Request, world: World)
    ensures var r := Act(s, request, world); r.Success? ==> PendingIsAllowed(r.value)
  {
    hide Act;
    match request.kind
    case AskEvidence => RevisedIsAllowed(s, request, world);
    case AddContext => RevisedIsAllowed(s, request, world);
    case AddFollowUpContext => RevisedIsAllowed(s, request, world);
    case Modify => ModifiedIsAllowed(s, request, world);
    case _ => PlainActionsNeverPend(s, request, world);
  }

  lemma RevisedIsAllowed(s: RunState, request: Request, world: World)
    requires request.kind == AskEvidence || request.kind == AddContext || request.kind == AddFollowUpContext
    ensures var r := Act(s, request, world); r.Success? ==> PendingIsAllowed(r.value)
  {
    hide Act, Recalculate, Without;
    RevisedPends(s, request, world);
    if s.decision.Some? {
      var d := s.decision.value;
      RecalculatedReadyIsAllowed(d, s.resource, Without(d.evidence, request.sources) + world.gathered,
                                 d.executions + world.records, world.evaluate);
      RecalculatedReadyIsAllowed(d, s.resource, d.evidence + [CONTEXT], d.executions, world.evaluate);
    }
  }

  lemma ModifiedIsAllowed(s: RunState, request: Request, world: World)
    requires request.kind == Modify
    ensures var r := Act(s, request, world); r.Success? ==> PendingIsAllowed(r.value)
  {
    hide ModifiedPolicy, RunVerifier, CalculateConfidence, Log, PolicyKinds, FirstWith;
  }

  predicate ReadyMeansAllowed(d: Decision) {
    d.finalStatus == RecommendationReady ==> d.policy.allowed && IsRemediation(d.preferred)
  }

  lemma RecalculatedReadyIsAllowed(prior: Decision, resource: Resource, evidence: seq<Item>,
                                   executions: seq<Execution>, evaluate: Evaluator)
    ensures ReadyMeansAllowed(Recalculate(prior, resource, evidence, executions, evaluate))
  {
    hide Ask, RunVerifier, ExpectedAction;
  }

  lemma ReadyIsAllowed(s: RunState, a: Analysis)
    ensures ReadyMeansAllowed(AnalysisDecision(s, a))
  {
    hide Recalculate, BuildDecision;
    BuiltReadyIsAllowed(s.resource, s.conflicting, a.selectedTools, a.executions, a.evidence, a.missing, a.evaluate);
    var d := BuildDecision(s.resource, s.conflicting, a.selectedTools, a.executions, a.evidence, a.missing, a.evaluate);
    RecalculatedReadyIsAllowed(d, s.resource, d.evidence + [CONTEXT], d.executions, a.evaluate);
  }

  lemma BuiltReadyIsAllowed(resource: Resource, conflicting: bool, selectedTools: seq<Source>,
                            executions: seq<Execution>,
                            evidence: seq<Item>, missing: seq<Missing>, evaluate: Evaluator)
    ensures ReadyMeansAllowed(BuildDecision(resource, conflicting, selectedTools, executions, evidence, missing,
                                            evaluate))
  {
    hide Ask, RunVerifier, ExpectedAction, CalculateConfidence, GenerateAlternatives, InitialChoice, AlternativeFor;
    hide DetectConflicts;
  }

  lemma {:induction false} ReachablePending(c: Case, steps: seq<Step>)
    requires Starting(c)
    ensures PendingIsAllowed(Run(c, steps).run)
  {
    if steps != [] {
      ReachablePending(c, steps[..|steps| - 1]);
      StepKeepsPending(Run(c, steps[..|steps| - 1]), steps[|steps| - 1]);
    }
  }

  predicate IsDefended(resource: Resource, d: Decision) {
    Defensible(resource, d.evidence, d.conflicts, d.preferred)
  }

  /** Whatever the evaluators answered, an approval of a pending scenario run without a pull request is applied, and
      opens one, exactly when the policy asked for approval and the recorded facts defend the remediation. */
  lemma ApprovalAppliesIff(c: Case, steps: seq<Step>, request: Request, world: World)
    requires Starting(c) && !c.run.github && !c.run.readOnly && request.kind == Approve
    requires Run(c, steps).run.status == PendingHumanReview && Run(c, steps).run.mockPr.None?
    ensures var s := Run(c, steps).run;
            var r := ApproveRun(s, request, world);
            && s.decision.Some?
            && (r.Success? <==> (s.decision.value.policy.requiresApproval && IsDefended(s.resource, s.decision.value)))
            && (r.Success? ==> r.value.status == PrCreated && r.value.mockPr.Some?)
  {
    hide RunVerifier, GenerateAlternatives, DetectConflicts, CriticalFailure, Defensible, Attempt, Log;
    ReachableInvariant(c, steps);
    ReachablePending(c, steps);
    HistoryOnlyGrows(c, [], steps);
    assert [] + steps == steps;
    var s := Run(c, steps).run;
    var d := s.decision.value;
    CriticalFailureIff(s.resource, d.evidence, d.conflicts, d.preferred);
  }

  /** An evaluator that allows nothing over a failed critical check, and asks for approval of exactly the
      remediations. */
  ghost predicate Respectful(evaluate: Evaluator) {
    forall resource, evidence, missing, alternative: Alternative, findings, conflicts, confidence ::
      Answers(evaluate(resource, evidence, missing, alternative, findings, conflicts, confidence), alternative.action,
              findings)
  }

  predicate Answers(policy: PolicyResult, action: Action, findings: seq<Finding>) {
    policy.allowed ==> (policy.requiresApproval <==> IsRemediation(action)) && !CriticalFailure(findings)
  }

  lemma PythonIsRespectful(minimum: real)
    ensures Respectful(PythonEvaluator(minimum))
  {
    hide CriticalFailure, OwnerKnown, CriticalMissing, ActiveDependencies, UtilizationIncomplete, MonthlySavings;
    hide PeakCpu, ContextReasons;
    forall resource, evidence, missing, alternative: Alternative, findings, conflicts, confidence: Breakdown
      ensures Answers(PythonEvaluator(minimum)(resource, evidence, missing, alternative, findings, conflicts,
                                               confidence), alternative.action, findings)
    {
      var owner := OwnerKnown(resource, evidence);
      assert |Blocking(resource, evidence, missing, alternative.action, findings, owner, Some(confidence.final),
                       minimum)|
          >= |ConflictDetector.When(CriticalFailure(findings), CriticalCheckFailed)|;
    }
  }

  ghost predicate RespectfulStep(step: Step) {
    && (step.Analyze? ==> Respectful(step.analysis.evaluate))
    && (step.HandleReview? ==> Respectful(step.world.evaluate))
  }

  predicate ReadyIsApprovable(d: Decision) {
    d.finalStatus == RecommendationReady ==> d.policy.requiresApproval && !CriticalFailure(d.findings)
  }

  predicate PendingIsApprovable(s: RunState) {
    s.status == PendingHumanReview ==>
      s.decision.Some? && s.decision.value.policy.requiresApproval && !CriticalFailure(s.decision.value.findings)
  }

  lemma RecalculatedReadyIsApprovable(prior: Decision, resource: Resource, evidence: seq<Item>,
                                      executions: seq<Execution>, evaluate: Evaluator)
    requires Respectful(evaluate)
    ensures ReadyIsApprovable(Recalculate(prior, resource, evidence, executions, evaluate))
  {
    hide RunVerifier, ExpectedAction, CalculateConfidence, GenerateAlternatives, DetectConflicts, PlainPolicy;
    hide CriticalFailure, MissingFromEvidence;
  }

  lemma BuiltReadyIsApprovable(resource: Resource, conflicting: bool, selectedTools: seq<Source>,
                               executions: seq<Execution>,
                               evidence: seq<Item>, missing: seq<Missing>, evaluate: Evaluator)
    requires Respectful(evaluate)
    ensures ReadyIsApprovable(BuildDecision(resource, conflicting, selectedTools, executions, evidence, missing,
                                            evaluate))
  {
    hide RunVerifier, ExpectedAction, CalculateConfidence, GenerateAlternatives, DetectConflicts, PlainPolicy;
    hide CriticalFailure;
    hide InitialChoice, AlternativeFor;
  }

  lemma AnalysisIsApprovable(s: RunState, a: Analysis)
    requires Respectful(a.evaluate)
    ensures ReadyIsApprovable(AnalysisDecision(s, a))
  {
    hide Recalculate, BuildDecision, ReadyIsApprovable;
    BuiltReadyIsApprovable(s.resource, s.conflicting, a.selectedTools, a.executions, a.evidence, a.missing, a.evaluate);
    var d := BuildDecision(s.resource, s.conflicting, a.selectedTools, a.executions, a.evidence, a.missing, a.evaluate);
    RecalculatedReadyIsApprovable(d, s.resource, d.evidence + [CONTEXT], d.executions, a.evaluate);
  }

  lemma RevisedIsApprovable(s: RunState, request: Request, world: World)
    requires Respectful(world.evaluate)
    requires request.kind == AskEvidence || request.kind == AddContext || request.kind == AddFollowUpContext
    ensures var r := Act(s, request, world); r.Success? ==> PendingIsApprovable(r.value)
  {
    hide Act, Recalculate, Without, Respectful, CriticalFailure;
    RevisedPends(s, request, world);
    if s.decision.Some? {
      var d := s.decision.value;
      RecalculatedReadyIsApprovable(d, s.resource, Without(d.evidence, request.sources) + world.gathered,
                                    d.executions + world.records, world.evaluate);
      RecalculatedReadyIsApprovable(d, s.resource, d.evidence + [CONTEXT], d.executions, world.evaluate);
    }
  }

  lemma ModifiedIsApprovable(s: RunState, request: Request, world: World)
    requires Respectful(world.evaluate) && request.kind == Modify
    ensures var r := Act(s, request, world); r.Success? ==> PendingIsApprovable(r.value)
  {
    hide RunVerifier, CalculateConfidence, Log, PolicyKinds, FirstWith, PlainPolicy, CriticalFailure;
  }

  lemma ActKeepsApprovable(s: RunState, request: Request, world: World)
    requires Respectful(world.evaluate)
    ensures var r := Act(s, request, world); r.Success? ==> PendingIsApprovable(r.value)
  {
    hide Act;
    match request.kind
    case AskEvidence => RevisedIsApprovable(s, request, world);
    case AddContext => RevisedIsApprovable(s, request, world);
    case AddFollowUpContext => RevisedIsApprovable(s, request, world);
    case Modify => ModifiedIsApprovable(s, request, world);
    case _ => PlainActionsNeverPend(s, request, world);
  }

  lemma {:induction false} ReachableApprovable(c: Case, steps: seq<Step>)
    requires Starting(c) && forall step <- steps :: RespectfulStep(step)
    ensures PendingIsApprovable(Run(c, steps).run)
  {
    hide Act, AnalysisDecision, Log, Repeat, ClosingKind, Respectful;
    if steps != [] {
      var prefix, step := steps[..|steps| - 1], steps[|steps| - 1];
      assert step in steps && forall x <- prefix :: x in steps;
      ReachableApprovable(c, prefix);
      var before := Run(c, prefix).run;
      if step.Analyze? {
        AnalysisIsApprovable(before, step.analysis);
      } else if step.HandleReview? {
        ActKeepsApprovable(before, step.request, step.world);
      }
    }
  }

  /** Progress: with respectful evaluators, the Python policy among them, an approval of a pending scenario run without
      a pull request is never refused and opens one. */
  lemma ApprovalIsNeverStuck(c: Case, steps: seq<Step>, request: Request, world: World)
    requires Starting(c) && !c.run.github && !c.run.readOnly && request.kind == Approve
    requires forall step <- steps :: RespectfulStep(step)
    requires Run(c, steps).run.status == PendingHumanReview && Run(c, steps).run.mockPr.None?
    ensures var r := ApproveRun(Run(c, steps).run, request, world);
            r.Success? && r.value.status == PrCreated && r.value.mockPr.Some? && ApprovedSafely(r.value)
  {
    hide RunVerifier, GenerateAlternatives, DetectConflicts, CriticalFailure, Attempt, Log, Defensible, ApprovedSafely;
    hide MockPrFor;
    ReachableApprovable(c, steps);
    ReachableInvariant(c, steps);
    ApprovalAppliesIff(c, steps, request, world);
    var s := Run(c, steps).run;
    GuardedDecisionIsDefensible(s.resource, s.decision.value) by { ReachablePending(c, steps); }
    ApprovalIsSafe(s, request, world);
  }
}
