/** How an analysis and a revision end: the stored status of a run, from the facts of its evidence and the evaluator's
    answers (core/reasoning_engine.py, `_build_decision`; core/workflow_service.py, `_recalculate_decision`). */
module Outcomes {
  import opened Wrappers
  import opened Evidence
  import opened ConflictDetector
  import opened AlternativeGenerator
  import opened Verifier
  import opened PolicyEngine
  import opened Confidence
  import opened ReasoningEngine
  import opened HumanContext
  import opened ReviewWorkflow
  import opened ReviewSafety
  import opened Comments

  /** The facts speak for a remediation. */
  predicate Remediable(resource: Resource, evidence: seq<Item>) {
    DownsizeFacts(resource, evidence, DetectConflicts(evidence)) || ScheduleFacts(resource, evidence)
  }

  /** A run ends in this status when production or a destructive change `blocks`, evidence is asked for (`asks`), or the
      facts decide. `answer` is the evaluator's to the action the facts call for, and `keep`, where there is a second
      question, the one to keeping the change. */
  predicate Ends(status: RunStatus, blocks: bool, asks: bool, resource: Resource, evidence: seq<Item>,
                 missing: seq<Missing>, answer: PolicyResult, keep: Option<PolicyResult>) {
    var abstains := !blocks && !asks && MayAbstain(evidence, missing, DetectConflicts(evidence));
    var remedies := !blocks && !asks && !abstains && Remediable(resource, evidence);
    var keeps := !blocks && !asks && !abstains && !Remediable(resource, evidence);
    var fallsBack := remedies && !answer.allowed && keep.Some?;
    var last := if fallsBack then keep.value else answer;
    match status
    case RunAbstained => abstains
    case PendingHumanReview => remedies && answer.allowed && answer.status != NeedsContext
    case RunKept => (keeps || fallsBack) && last.allowed
    case NeedsMoreEvidence =>
      || (asks && (answer.allowed || answer.status == NeedsContext))
      || (remedies && answer.allowed && answer.status == NeedsContext)
      || ((keeps || remedies) && !last.allowed && last.status == NeedsContext)
    case RunBlocked => blocks || ((asks || keeps || remedies) && !last.allowed && last.status != NeedsContext)
    case _ => false
  }

  /** The action called for. */
  function CalledFor(blocks: bool, asks: bool, resource: Resource, evidence: seq<Item>, missing: seq<Missing>): Action {
    if blocks then Blocked
    else if asks then RequestEvidence
    else if MayAbstain(evidence, missing, DetectConflicts(evidence)) then Abstain
    else if DownsizeFacts(resource, evidence, DetectConflicts(evidence)) then Downsize
    else if ScheduleFacts(resource, evidence) then Schedule
    else Keep
  }

  lemma StoredEndsIff(status: RunStatus, blocks: bool, asks: bool, resource: Resource, evidence: seq<Item>,
                      missing: seq<Missing>, answer: PolicyResult, keep: Option<PolicyResult>)
    requires !(blocks && asks)
    ensures var action := CalledFor(blocks, asks, resource, evidence, missing);
            var fallsBack := IsRemediation(action) && !answer.allowed && keep.Some?;
            MapFinalStatus(StatusOf(if fallsBack then Keep else action, if fallsBack then keep.value else answer))
            == status
            <==> Ends(status, blocks, asks, resource, evidence, missing, answer, keep)
  {
    hide MayAbstain, DownsizeFacts, ScheduleFacts, DetectConflicts;
  }

  /** The evaluator's answer to the action an analysis prefers. */
  function FirstAnswer(s: RunState, a: Analysis): PolicyResult {
    Ask(s.resource, a.selectedTools, a.evidence, a.missing,
        InitialChoice(s.resource, s.conflicting, a.evidence, a.missing), [], a.evaluate)
  }

  /** The evaluator's answer to keeping the change instead. */
  function KeepAnswer(s: RunState, a: Analysis): PolicyResult {
    var conflicts := DetectConflicts(a.evidence);
    Ask(s.resource, a.selectedTools, a.evidence, a.missing,
        AlternativeFor(s.resource, a.evidence, a.missing, conflicts, Keep),
        RunVerifier(s.resource, a.evidence, conflicts, Keep), a.evaluate)
  }

  /** The stored status of every completed analysis without context: for each status, exactly when it is that. */
  lemma AnalysisEndsIff(s: RunState, a: Analysis, status: RunStatus)
    requires a.raised.NotRaised? && !a.hasContext
    ensures var blocks := !s.conflicting && HardBlocked(s.resource);
            var asks := s.conflicting || (!blocks && MustRequest(a.missing, DetectConflicts(a.evidence)));
            AnalyzeRun(s, a).status == status
            <==> Ends(status, blocks, asks, s.resource, a.evidence, a.missing, FirstAnswer(s, a),
                      Some(KeepAnswer(s, a)))
  {
    hide Ends, MustRequest, FirstAnswer, KeepAnswer, StatusOf, MapFinalStatus, AnalyzeRun, InitialChoice, CalledFor;
    var blocks := !s.conflicting && HardBlocked(s.resource);
    var asks := s.conflicting || (!blocks && MustRequest(a.missing, DetectConflicts(a.evidence)));
    StoredEndsIff(status, blocks, asks, s.resource, a.evidence, a.missing, FirstAnswer(s, a), Some(KeepAnswer(s, a)));
    AnalysisStores(s, a);
    FirstCall(s, a);
  }

  lemma FirstCall(s: RunState, a: Analysis)
    ensures var blocks := !s.conflicting && HardBlocked(s.resource);
            var asks := s.conflicting || (!blocks && MustRequest(a.missing, DetectConflicts(a.evidence)));
            InitialChoice(s.resource, s.conflicting, a.evidence, a.missing).action
            == CalledFor(blocks, asks, s.resource, a.evidence, a.missing)
  {
    hide DetectConflicts, MustRequest, MayAbstain, DownsizeFacts, ScheduleFacts, InitialChoice;
  }

  lemma AnalysisStores(s: RunState, a: Analysis)
    requires a.raised.NotRaised? && !a.hasContext
    ensures var action, answer := InitialChoice(s.resource, s.conflicting, a.evidence, a.missing).action,
                                  FirstAnswer(s, a);
            var fallsBack := IsRemediation(action) && !answer.allowed;
            AnalyzeRun(s, a).status
            == MapFinalStatus(StatusOf(if fallsBack then Keep else action,
                                       if fallsBack then KeepAnswer(s, a) else answer))
  {
    hide Ask, RunVerifier, GenerateAlternatives, DetectConflicts, CalculateConfidence, InitialChoice, AlternativeFor;
    hide StatusOf, MapFinalStatus, Repeat, ClosingKind, Log;
  }

  /** The evaluator's answer inside a recalculation. */
  function RevisedAnswer(prior: Decision, resource: Resource, evidence: seq<Item>, evaluate: Evaluator): PolicyResult {
    var missing, preferred := MissingFromEvidence(evidence), RecalculatedChoice(prior, resource, evidence);
    Ask(resource, prior.selectedTools, evidence, missing, preferred,
        RunVerifier(resource, evidence, DetectConflicts(evidence), preferred.action), evaluate)
  }

  /** A recalculation, as it is stored. */
  lemma RecalculationEndsIff(prior: Decision, resource: Resource, evidence: seq<Item>, executions: seq<Execution>,
                             evaluate: Evaluator, status: RunStatus)
    ensures var missing := MissingFromEvidence(evidence);
            var blocks := resource.production || (resource.destructive && prior.preferred != RequestEvidence);
            var asks := !blocks && MustRequest(missing, DetectConflicts(evidence));
            MapFinalStatus(Recalculate(prior, resource, evidence, executions, evaluate).finalStatus) == status
            <==> Ends(status, blocks, asks, resource, evidence, missing,
                      RevisedAnswer(prior, resource, evidence, evaluate), None)
  {
    hide Ends, DetectConflicts, MustRequest, MayAbstain, DownsizeFacts, ScheduleFacts, MissingFromEvidence;
    hide StatusOf, MapFinalStatus, Recalculate, RevisedAnswer;
    var missing := MissingFromEvidence(evidence);
    var blocks := resource.production || (resource.destructive && prior.preferred != RequestEvidence);
    var asks := !blocks && MustRequest(missing, DetectConflicts(evidence));
    StoredEndsIff(status, blocks, asks, resource, evidence, missing, RevisedAnswer(prior, resource, evidence, evaluate),
                  None);
    RecalculationStores(prior, resource, evidence, executions, evaluate);
  }

  lemma RecalculationStores(prior: Decision, resource: Resource, evidence: seq<Item>, executions: seq<Execution>,
                            evaluate: Evaluator)
    ensures Recalculate(prior, resource, evidence, executions, evaluate).finalStatus
         == StatusOf(RecalculatedChoice(prior, resource, evidence).action,
                     RevisedAnswer(prior, resource, evidence, evaluate))
  {
    hide Ask, RunVerifier, GenerateAlternatives, DetectConflicts, CalculateConfidence, RecalculatedChoice, StatusOf;
    hide MissingFromEvidence;
  }

  /** The evidence an applied evidence request or comment leaves. */
  function RevisedEvidence(d: Decision, request: Request, world: World): seq<Item> {
    if request.kind == AskEvidence then Without(d.evidence, request.sources) + world.gathered
    else d.evidence + [CONTEXT]
  }

  /** The stored status after every applied evidence request and comment: for each status, exactly when it is that. */
  lemma RevisionEndsIff(s: RunState, request: Request, world: World, status: RunStatus)
    requires request.kind == AskEvidence || request.kind == AddContext || request.kind == AddFollowUpContext
    requires s.decision.Some? && Act(s, request, world).Success?
    ensures var d := s.decision.value;
            var evidence := RevisedEvidence(d, request, world);
            var missing := MissingFromEvidence(evidence);
            var blocks := s.resource.production || (s.resource.destructive && d.preferred != RequestEvidence);
            var asks := !blocks && MustRequest(missing, DetectConflicts(evidence));
            Act(s, request, world).value.status == status
            <==> Ends(status, blocks, asks, s.resource, evidence, missing,
                      RevisedAnswer(d, s.resource, evidence, world.evaluate), None)
  {
    hide Act, Recalculate, Ends, RevisedAnswer, Without, MustRequest, DetectConflicts, MissingFromEvidence;
    var d := s.decision.value;
    var evidence := RevisedEvidence(d, request, world);
    RevisionStores(s, request, world);
    var executions := if request.kind == AskEvidence then d.executions + world.records else d.executions;
    RecalculationEndsIff(d, s.resource, evidence, executions, world.evaluate, status);
  }

  lemma RevisionStores(s: RunState, request: Request, world: World)
    requires request.kind == AskEvidence || request.kind == AddContext || request.kind == AddFollowUpContext
    requires s.decision.Some? && Act(s, request, world).Success?
    ensures var d := s.decision.value;
            var executions := if request.kind == AskEvidence then d.executions + world.records else d.executions;
            var revised := Recalculate(d, s.resource, RevisedEvidence(d, request, world), executions, world.evaluate);
            Act(s, request, world).value.status == MapFinalStatus(revised.finalStatus)
  {
    hide Recalculate, Log, PolicyKinds, Repeat, Without, MapFinalStatus;
  }

  /** An analysis that starts with a reviewer's context is revised once before it is stored. */
  lemma ContextualAnalysisEndsIff(s: RunState, a: Analysis, status: RunStatus)
    requires a.raised.NotRaised? && a.hasContext
    ensures var first := BuildDecision(s.resource, s.conflicting, a.selectedTools, a.executions, a.evidence, a.missing,
                                       a.evaluate);
            var evidence := a.evidence + [CONTEXT];
            var missing := MissingFromEvidence(evidence);
            var blocks := s.resource.production || (s.resource.destructive && first.preferred != RequestEvidence);
            var asks := !blocks && MustRequest(missing, DetectConflicts(evidence));
            AnalyzeRun(s, a).status == status
            <==> Ends(status, blocks, asks, s.resource, evidence, missing,
                      RevisedAnswer(first, s.resource, evidence, a.evaluate), None)
  {
    hide Recalculate, Ends, RevisedAnswer, MustRequest, DetectConflicts, MissingFromEvidence, Ask, Repeat, ClosingKind;
    hide Log, RunVerifier, GenerateAlternatives, CalculateConfidence;
    var first := BuildDecision(s.resource, s.conflicting, a.selectedTools, a.executions, a.evidence, a.missing,
                               a.evaluate);
    RecalculationEndsIff(first, s.resource, a.evidence + [CONTEXT], first.executions, a.evaluate, status);
  }

  /** A completed analysis closes its audit trail with what is next: a human review of a scenario's recommendation, or
      nothing more. */
  lemma AnalysisIsAudited(s: RunState, a: Analysis)
    ensures var t := AnalyzeRun(s, a);
            && |t.audit| == |s.audit| + a.auditEvents + 1
            && t.audit[|t.audit| - 1].kind
               == if !a.raised.NotRaised? then FailureHandled
                  else if s.github then AnalysisEvent
                  else if t.status == PendingHumanReview then HumanReviewRequired else GoalCompleted
  {
    hide AnalysisDecision;
  }

  /** An analysis that raised has failed safely, with a decision only if that was stored before; a skipped one keeps the
      change without any. */
  lemma OtherwiseEnds(s: RunState, a: Analysis)
    requires s.decision.None?
    ensures !a.raised.NotRaised? ==>
              && AnalyzeRun(s, a).status == FailedSafely
              && (AnalyzeRun(s, a).decision.Some? <==> a.raised == AfterDecision)
    ensures SkipRun(s).status == RunKept && SkipRun(s).decision.None?
  {
    hide AnalysisDecision, Repeat;
  }

  // ----- under the Python policy -----

  /** Under the Python policy the facts alone decide how an analysis ends: blocked, for production and destructive
      changes outside an audit; asking; abstaining, which is over active dependencies; keeping, also for a remediation
      that does not pass; or pending, with one that does. */
  lemma PythonAnalysisEnds(s: RunState, a: Analysis, unresolved: seq<Source>, minimum: real)
    requires a.raised.NotRaised? && !a.hasContext && a.evaluate == PythonEvaluator(minimum)
    requires a.missing == MissingWithUnresolved(a.evidence, unresolved)
    ensures var action := FirstChoice(s.resource, s.conflicting, a.evidence, unresolved).action;
            var confidence := ProvisionalFor(s.resource, a.evidence, 0, action, a.selectedTools);
            var passes := Passes(s.resource, a.evidence, action, minimum, confidence);
            var status := AnalyzeRun(s, a).status;
            && (status == RunBlocked <==> !s.conflicting && HardBlocked(s.resource))
            && (status == NeedsMoreEvidence <==>
                  s.conflicting || (!HardBlocked(s.resource) && MustRequest(a.missing, DetectConflicts(a.evidence))))
            && (status == RunAbstained <==>
                  && !s.conflicting && !HardBlocked(s.resource)
                  && !MustRequest(a.missing, DetectConflicts(a.evidence)) && ActiveDependencies(a.evidence))
            && (status == PendingHumanReview <==> IsRemediation(action) && passes)
            && (status == RunKept <==> action == Keep || (IsRemediation(action) && !passes))
  {
    hide RunVerifier, GenerateAlternatives, DetectConflicts, MustRequest, PythonEvaluator, FirstAnswer, KeepAnswer;
    hide InitialChoice, ProvisionalFor, Passes, MapFinalStatus, StatusOf, MissingWithUnresolved, AnalyzeRun;
    var action := FirstChoice(s.resource, s.conflicting, a.evidence, unresolved).action;
    AnalysisStores(s, a);
    PythonAnswers(s, a, unresolved, minimum);
    FirstChoiceFacts(s.resource, s.conflicting, a.evidence, unresolved);
    StoredStatus(action, FirstAnswer(s, a));
    StoredStatus(Keep, KeepAnswer(s, a));
  }

  lemma StoredStatus(action: Action, policy: PolicyResult)
    ensures var status := MapFinalStatus(StatusOf(action, policy));
            && (action == Blocked ==> status == RunBlocked) && (action == Abstain ==> status == RunAbstained)
            && (action == RequestEvidence && policy.status == NeedsContext ==> status == NeedsMoreEvidence)
            && (action == Keep && policy.allowed ==> status == RunKept)
            && (IsRemediation(action) && policy.allowed && policy.status != NeedsContext ==>
                  status == PendingHumanReview)
  {
  }

  lemma FirstChoiceFacts(resource: Resource, conflicting: bool, evidence: seq<Item>, unresolved: seq<Source>)
    ensures var missing, conflicts := MissingWithUnresolved(evidence, unresolved), DetectConflicts(evidence);
            var action := FirstChoice(resource, conflicting, evidence, unresolved).action;
            && (action == Blocked <==> !conflicting && HardBlocked(resource))
            && (action == RequestEvidence
                <==> conflicting || (!HardBlocked(resource) && MustRequest(missing, conflicts)))
            && (action == Abstain <==>
                  !conflicting && !HardBlocked(resource) && !MustRequest(missing, conflicts)
                  && ActiveDependencies(evidence))
  {
    hide GenerateAlternatives, MissingWithUnresolved, DetectConflicts, DownsizeFacts, ScheduleFacts, ActiveDependencies;
    hide HasHigh, UnresolvedContextConflict, CriticalMissing;
    HighIsActiveUnlessAsked(evidence);
  }

  lemma PythonAnswers(s: RunState, a: Analysis, unresolved: seq<Source>, minimum: real)
    requires a.evaluate == PythonEvaluator(minimum) && a.missing == MissingWithUnresolved(a.evidence, unresolved)
    ensures var action := FirstChoice(s.resource, s.conflicting, a.evidence, unresolved).action;
            && (FirstAnswer(s, a).status == NeedsContext <==> action == RequestEvidence)
            && (action == Keep ==> FirstAnswer(s, a).allowed)
            && (IsRemediation(action) ==>
                  (FirstAnswer(s, a).allowed
                   <==> Passes(s.resource, a.evidence, action, minimum,
                               ProvisionalFor(s.resource, a.evidence, 0, action, a.selectedTools))))
            && KeepAnswer(s, a).allowed && KeepAnswer(s, a).status != NeedsContext
  {
    hide Ask, PythonEvaluator, ProvisionalFor, OwnerKnown, RunVerifier, DetectConflicts, CalculateConfidence, Passes;
    hide PlainPolicy, MissingFromEvidence, MissingWithUnresolved, GenerateAlternatives, ActiveDependencies, Blocking;
    var resource, evidence, missing := s.resource, a.evidence, a.missing;
    var conflicts, owner := DetectConflicts(evidence), OwnerKnown(resource, evidence);
    var choice := FirstChoice(resource, s.conflicting, evidence, unresolved);
    hide InitialChoice;
    FellBackIff(resource, s.conflicting, a.selectedTools, evidence, unresolved, minimum);
    var confidence := PythonAsked(resource, evidence, missing, choice, a.selectedTools, [], minimum);
    var keep := AlternativeFor(resource, evidence, missing, conflicts, Keep);
    var again := PythonAsked(resource, evidence, missing, keep, a.selectedTools,
                             RunVerifier(resource, evidence, conflicts, Keep), minimum);
    OtherActionsAllowedIff(resource, evidence, missing, Keep, conflicts, owner, Some(again), minimum);
    if !IsRemediation(choice.action) {
      OtherActionsAllowedIff(resource, evidence, missing, choice.action, conflicts, owner, Some(confidence), minimum);
    }
  }
}
