/** What reviewers' comments do to a stored decision (core/workflow_service.py, `_add_context` and
    `_recalculate_decision`): every comment is recalculated from the decision the one before it stored. */
module Comments {
  import opened Wrappers
  import opened Evidence
  import opened ConflictDetector
  import opened AlternativeGenerator
  import opened Verifier
  import opened PolicyEngine
  import opened Confidence
  import opened ReasoningEngine
  import opened HumanContext

  /** One comment. */
  function Commented(d: Decision, resource: Resource, evaluate: Evaluator): Decision {
    Recalculate(d, resource, d.evidence + [CONTEXT], d.executions, evaluate)
  }

  /** One comment after the other, each under the evaluator of its time. */
  function AfterComments(d: Decision, resource: Resource, evaluators: seq<Evaluator>): Decision {
    if evaluators == [] then d
    else Commented(AfterComments(d, resource, evaluators[..|evaluators| - 1]), resource, evaluators[|evaluators| - 1])
  }

  /** What the evidence calls for when only production blocks. */
  function Choice(resource: Resource, evidence: seq<Item>): Action {
    ExpectedAction(resource, evidence, MissingFromEvidence(evidence), DetectConflicts(evidence), resource.production)
  }

  /** A destructive change whose stored decision asked for evidence that the evidence itself no longer asks for. */
  predicate Wavers(d: Decision, resource: Resource) {
    && resource.destructive && !resource.production && d.preferred == RequestEvidence
    && !MustRequest(MissingFromEvidence(d.evidence), DetectConflicts(d.evidence))
  }

  /** The action preferred after `count` comments. */
  function Settled(d: Decision, resource: Resource, count: nat): Action {
    if resource.production || (resource.destructive && d.preferred != RequestEvidence)
       || (Wavers(d, resource) && count > 1) then Blocked
    else Choice(resource, d.evidence)
  }

  /** A recalculation over appended comments reads the evidence without them. */
  lemma RecalculatedReads(prior: Decision, resource: Resource, evidence: seq<Item>, count: nat,
                          executions: seq<Execution>, evaluate: Evaluator)
    ensures var d := Recalculate(prior, resource, evidence + Contexts(count), executions, evaluate);
            var missing, conflicts := MissingFromEvidence(evidence), DetectConflicts(evidence);
            && d.conflicts == conflicts && d.missing == missing
            && d.alternatives == GenerateAlternatives(resource, evidence, missing, conflicts)
            && d.preferred == ExpectedAction(resource, evidence, missing, conflicts,
                                             RecalculationBlocks(prior, resource))
            && d.findings == RunVerifier(resource, evidence, conflicts, d.preferred)
  {
    hide RunVerifier, GenerateAlternatives, DetectConflicts, MissingFromEvidence, ExpectedAction, CalculateConfidence;
    hide Ask;
    SameOutcomeWithContexts(prior, resource, evidence, count, executions, evaluate);
  }

  lemma RecalculatedCarries(prior: Decision, resource: Resource, evidence: seq<Item>, executions: seq<Execution>,
                            evaluate: Evaluator)
    ensures var d := Recalculate(prior, resource, evidence, executions, evaluate);
            d.evidence == evidence && d.executions == executions && d.selectedTools == prior.selectedTools
  {
    hide RunVerifier, GenerateAlternatives, DetectConflicts, MissingFromEvidence, ExpectedAction, CalculateConfidence;
    hide Ask;
  }

  /** Everything `count` comments leave, but for the evaluators' answers. */
  ghost predicate SettledOn(a: Decision, d: Decision, resource: Resource, count: nat) {
    var missing, conflicts := MissingFromEvidence(d.evidence), DetectConflicts(d.evidence);
    && a.evidence == d.evidence + Contexts(count) && a.executions == d.executions && a.selectedTools == d.selectedTools
    && (count >= 1 ==>
          && a.conflicts == conflicts && a.missing == missing
          && a.alternatives == GenerateAlternatives(resource, d.evidence, missing, conflicts)
          && a.preferred == Settled(d, resource, count)
          && a.findings == RunVerifier(resource, d.evidence, conflicts, a.preferred))
  }

  /** Where any number of comments takes a stored decision, whatever the evaluators answer in between. */
  lemma {:induction false} CommentsSettle(d: Decision, resource: Resource, evaluators: seq<Evaluator>)
    ensures SettledOn(AfterComments(d, resource, evaluators), d, resource, |evaluators|)
  {
    hide Recalculate, RunVerifier, GenerateAlternatives, DetectConflicts, MissingFromEvidence;
    if evaluators == [] {
      assert d.evidence + Contexts(0) == d.evidence;
    } else {
      var n := |evaluators|;
      var evaluate := evaluators[n - 1];
      CommentsSettle(d, resource, evaluators[..n - 1]);
      var prior := AfterComments(d, resource, evaluators[..n - 1]);
      assert prior.evidence + [CONTEXT] == d.evidence + Contexts(n);
      RecalculatedReads(prior, resource, d.evidence, n, prior.executions, evaluate);
      RecalculatedCarries(prior, resource, d.evidence + Contexts(n), prior.executions, evaluate);
      SettledNext(d, resource, prior, n);
    }
  }

  /** The action of one comment more. */
  lemma SettledNext(d: Decision, resource: Resource, prior: Decision, count: nat)
    requires count >= 1 && prior.preferred == if count == 1 then d.preferred else Settled(d, resource, count - 1)
    ensures ExpectedAction(resource, d.evidence, MissingFromEvidence(d.evidence), DetectConflicts(d.evidence),
                           RecalculationBlocks(prior, resource))
         == Settled(d, resource, count)
  {
    hide MustRequest, MayAbstain, DownsizeFacts, ScheduleFacts, MissingFromEvidence, DetectConflicts;
  }

  /** Comments do not move the outcome: after any number of them it is that of a recalculation without any, unless the
      change is destructive. Then a second comment, and every later one, moves it exactly when the decision commented on
      asked for evidence that its evidence no longer calls for. */
  lemma ContextCannotMoveOutcome(d: Decision, resource: Resource, evaluators: seq<Evaluator>, evaluate: Evaluator)
    requires evaluators != []
    ensures var after := AfterComments(d, resource, evaluators);
            var without := Recalculate(d, resource, d.evidence, d.executions, evaluate);
            && (SameOutcome(after, without) <==> !(Wavers(d, resource) && |evaluators| > 1))
            && (!resource.destructive || |evaluators| == 1 ==> SameOutcome(after, without))
  {
    hide Recalculate, RunVerifier, GenerateAlternatives, DetectConflicts, MissingFromEvidence, AfterComments;
    CommentsSettle(d, resource, evaluators);
    assert d.evidence + Contexts(0) == d.evidence;
    RecalculatedReads(d, resource, d.evidence, 0, d.executions, evaluate);
    SettledNext(d, resource, d, 1);
    if Wavers(d, resource) { ChoiceAsksIff(resource, d.evidence); }
  }

  /** The action `_build_decision` prefers before it asks the evaluator, from the sources planning left unresolved. */
  function FirstChoice(resource: Resource, conflicting: bool, evidence: seq<Item>,
                       unresolved: seq<Source>): Alternative {
    InitialChoice(resource, conflicting, evidence, MissingWithUnresolved(evidence, unresolved))
  }

  function FirstDecision(resource: Resource, conflicting: bool, selected: seq<Source>, executions: seq<Execution>,
                         evidence: seq<Item>, unresolved: seq<Source>, evaluate: Evaluator): Decision {
    BuildDecision(resource, conflicting, selected, executions, evidence, MissingWithUnresolved(evidence, unresolved),
                  evaluate)
  }

  /** The evaluator denied the remediation preferred at first. */
  predicate FellBack(resource: Resource, conflicting: bool, selected: seq<Source>, evidence: seq<Item>,
                     unresolved: seq<Source>, evaluate: Evaluator) {
    var choice := FirstChoice(resource, conflicting, evidence, unresolved);
    && IsRemediation(choice.action)
    && !Ask(resource, selected, evidence, MissingWithUnresolved(evidence, unresolved), choice, [], evaluate).allowed
  }

  lemma FirstDecisionFacts(resource: Resource, conflicting: bool, selected: seq<Source>, executions: seq<Execution>,
                           evidence: seq<Item>, unresolved: seq<Source>, evaluate: Evaluator)
    ensures var d := FirstDecision(resource, conflicting, selected, executions, evidence, unresolved, evaluate);
            && d.evidence == evidence && d.selectedTools == selected
            && d.preferred == if FellBack(resource, conflicting, selected, evidence, unresolved, evaluate) then Keep
                              else FirstChoice(resource, conflicting, evidence, unresolved).action
  {
    hide Ask, RunVerifier, GenerateAlternatives, DetectConflicts, CalculateConfidence, MissingWithUnresolved;
  }

  /** Critical records only come on top of those the evidence calls for. */
  lemma UnresolvedOnlyAsksMore(evidence: seq<Item>, unresolved: seq<Source>)
    ensures var missing, all := MissingFromEvidence(evidence), MissingWithUnresolved(evidence, unresolved);
            CriticalMissing(missing) ==> CriticalMissing(all)
  {
    hide UnavailableCritical, MissingWithUnresolved, MissingFromEvidence, CriticalMissing;
    CriticalGapIff(evidence, unresolved);
    CriticalMissingIff(evidence);
  }

  /** The first choice is the one the evidence alone calls for, a block, or a request for evidence. */
  lemma FirstChoiceIs(resource: Resource, conflicting: bool, evidence: seq<Item>, unresolved: seq<Source>)
    ensures var action := FirstChoice(resource, conflicting, evidence, unresolved).action;
            && (conflicting ==> action == RequestEvidence)
            && (!conflicting && HardBlocked(resource) ==> action == Blocked)
            && (!conflicting && !HardBlocked(resource) ==>
                  action == Choice(resource, evidence)
                  || (action == RequestEvidence && Choice(resource, evidence) != Blocked))
  {
    hide GenerateAlternatives, MissingWithUnresolved, DetectConflicts, DownsizeFacts, ScheduleFacts;
    hide MissingFromEvidence;
    hide CriticalMissing, UnresolvedContextConflict, ActiveDependencies, HasHigh;
    UnresolvedOnlyAsksMore(evidence, unresolved);
  }

  /** When the first comment moves the preferred action of a first decision: it had asked for evidence that the evidence
      alone does not call for, or on behalf of production, or it had fallen back to keeping the change. */
  lemma FirstCommentMovesIff(resource: Resource, conflicting: bool, selected: seq<Source>, executions: seq<Execution>,
                             evidence: seq<Item>, unresolved: seq<Source>, first: Evaluator, later: Evaluator)
    ensures var d := FirstDecision(resource, conflicting, selected, executions, evidence, unresolved, first);
            var asks := FirstChoice(resource, conflicting, evidence, unresolved).action == RequestEvidence;
            var stillAsks := MustRequest(MissingFromEvidence(evidence), DetectConflicts(evidence));
            && Commented(d, resource, later).preferred == Settled(d, resource, 1)
            && (Commented(d, resource, later).preferred != d.preferred <==>
                  || (asks && (resource.production || !stillAsks))
                  || FellBack(resource, conflicting, selected, evidence, unresolved, first))
  {
    hide Ask, FirstDecision, FirstChoice, FellBack, Recalculate, DetectConflicts, MissingFromEvidence, MustRequest;
    hide Choice;
    var d := FirstDecision(resource, conflicting, selected, executions, evidence, unresolved, first);
    FirstDecisionFacts(resource, conflicting, selected, executions, evidence, unresolved, first);
    FirstChoiceIs(resource, conflicting, evidence, unresolved);
    FallBackIsPlain(resource, conflicting, selected, evidence, unresolved, first);
    ChoiceAsksIff(resource, evidence);
    CommentsSettle(d, resource, [later]);
    assert [later][..0] == [] && AfterComments(d, resource, [later]) == Commented(d, resource, later);
  }

  lemma FallBackIsPlain(resource: Resource, conflicting: bool, selected: seq<Source>, evidence: seq<Item>,
                        unresolved: seq<Source>, evaluate: Evaluator)
    ensures FellBack(resource, conflicting, selected, evidence, unresolved, evaluate) ==>
              && !conflicting && !HardBlocked(resource) && IsRemediation(Choice(resource, evidence))
              && FirstChoice(resource, conflicting, evidence, unresolved).action == Choice(resource, evidence)
  {
    hide FirstChoice, Choice, Ask;
    FirstChoiceIs(resource, conflicting, evidence, unresolved);
  }

  lemma ChoiceAsksIff(resource: Resource, evidence: seq<Item>)
    ensures Choice(resource, evidence) == RequestEvidence <==>
            !resource.production && MustRequest(MissingFromEvidence(evidence), DetectConflicts(evidence))
    ensures Choice(resource, evidence) == Blocked <==> resource.production
  {
    hide MustRequest, MayAbstain, DownsizeFacts, ScheduleFacts, MissingFromEvidence, DetectConflicts;
  }

  // ----- under the Python policy -----

  function PythonTimes(minimum: real, count: nat): (r: seq<Evaluator>)
    ensures |r| == count && forall i | 0 <= i < count :: r[i] == PythonEvaluator(minimum)
  {
    seq(count, _ => PythonEvaluator(minimum))
  }

  /** The confidence handed to the evaluator for an action, over evidence with `count` comments. */
  function ProvisionalFor(resource: Resource, evidence: seq<Item>, count: nat, action: Action,
                          tools: seq<Source>): real {
    var missing, conflicts := MissingFromEvidence(evidence), DetectConflicts(evidence);
    var plain := PlainPolicy(resource, evidence, missing, action, RunVerifier(resource, evidence, conflicts, action),
                             conflicts);
    CalculateConfidence(evidence + Contexts(count), conflicts, plain, tools).final
  }

  /** More comments never lower it. */
  lemma {:induction false} ProvisionalGrows(resource: Resource, evidence: seq<Item>, few: nat, many: nat,
                                            action: Action, tools: seq<Source>)
    requires few <= many
    ensures ProvisionalFor(resource, evidence, few, action, tools)
            <= ProvisionalFor(resource, evidence, many, action, tools)
    decreases many - few
  {
    hide CalculateConfidence, PlainPolicy, RunVerifier;
    if few < many {
      ProvisionalGrows(resource, evidence, few, many - 1, action, tools);
      var missing, conflicts := MissingFromEvidence(evidence), DetectConflicts(evidence);
      var plain := PlainPolicy(resource, evidence, missing, action, RunVerifier(resource, evidence, conflicts, action),
                               conflicts);
      FreshItemNeverLowers(evidence + Contexts(many - 1), CONTEXT, conflicts, plain, tools);
      assert evidence + Contexts(many - 1) + [CONTEXT] == evidence + Contexts(many);
    }
  }

  lemma SameMissing(a: seq<Item>, b: seq<Item>)
    requires SameFacts(a, b)
    ensures MissingFromEvidence(a) == MissingFromEvidence(b)
  {
  }

  /** The Python policy's answer inside a recalculation. */
  lemma RecalculatedAnswer(prior: Decision, resource: Resource, evidence: seq<Item>, executions: seq<Execution>,
                           minimum: real)
    ensures var d := Recalculate(prior, resource, evidence, executions, PythonEvaluator(minimum));
            var missing, conflicts := MissingFromEvidence(evidence), DetectConflicts(evidence);
            var findings := RunVerifier(resource, evidence, conflicts, d.preferred);
            var plain := PlainPolicy(resource, evidence, missing, d.preferred, findings, conflicts);
            d.policy == EvaluatePolicy(resource, evidence, missing, d.preferred, findings, conflicts,
                                       OwnerKnown(resource, evidence),
                                       Some(CalculateConfidence(evidence, conflicts, plain, prior.selectedTools).final),
                                       minimum)
  {
    hide EvaluatePolicy, PlainPolicy, RunVerifier, CalculateConfidence, ExpectedAction, DetectConflicts;
    hide MissingFromEvidence;
    hide OwnerKnown, GenerateAlternatives;
  }

  /** The Python policy's answer to a comment reads the evidence without comments, but for the confidence. */
  lemma PythonReads(prior: Decision, resource: Resource, evidence: seq<Item>, count: nat, executions: seq<Execution>,
                    minimum: real)
    ensures var d := Recalculate(prior, resource, evidence + Contexts(count), executions, PythonEvaluator(minimum));
            d.policy == PythonAnswer(resource, evidence, d.preferred, minimum,
                                     ProvisionalFor(resource, evidence, count, d.preferred, prior.selectedTools))
  {
    hide Blocking, RunVerifier, CalculateConfidence, DetectConflicts, MissingFromEvidence, OwnerKnown, ContextReasons;
    hide Recalculate, SameFacts, PythonEvaluator;
    var more := evidence + Contexts(count);
    ManyContextsAddNoFacts(evidence, count);
    RecalculatedReads(prior, resource, evidence, count, executions, PythonEvaluator(minimum));
    RecalculatedAnswer(prior, resource, more, executions, minimum);
    SameFactsSameConflicts(more, evidence);
    SameMissing(more, evidence);
    var missing, conflicts := MissingFromEvidence(evidence), DetectConflicts(evidence);
    var action := Recalculate(prior, resource, more, executions, PythonEvaluator(minimum)).preferred;
    SameFactsSameFindings(resource, more, evidence, conflicts, action);
    var findings := RunVerifier(resource, evidence, conflicts, action);
    var confidence := ProvisionalFor(resource, evidence, count, action, prior.selectedTools);
    SameFactsSameBlocking(resource, more, evidence, missing, action, findings, true, None, 0.7);
    SameFactsSameBlocking(resource, more, evidence, missing, action, findings, OwnerKnown(resource, evidence),
                          Some(confidence), minimum);
  }

  function PythonAnswer(resource: Resource, evidence: seq<Item>, action: Action, minimum: real,
                        confidence: real): PolicyResult {
    var missing, conflicts := MissingFromEvidence(evidence), DetectConflicts(evidence);
    EvaluatePolicy(resource, evidence, missing, action, RunVerifier(resource, evidence, conflicts, action), conflicts,
                   OwnerKnown(resource, evidence), Some(confidence), minimum)
  }

  lemma PythonCommentsRead(d: Decision, resource: Resource, count: nat, minimum: real)
    requires count >= 1
    ensures var a := AfterComments(d, resource, PythonTimes(minimum, count));
            var action := Settled(d, resource, count);
            a.preferred == action
            && a.policy == PythonAnswer(resource, d.evidence, action, minimum,
                                        ProvisionalFor(resource, d.evidence, count, action, d.selectedTools))
  {
    hide Recalculate, PythonAnswer, ProvisionalFor, Settled, PythonEvaluator;
    var evaluators := PythonTimes(minimum, count);
    CommentsSettle(d, resource, evaluators);
    CommentsSettle(d, resource, evaluators[..count - 1]);
    var prior := AfterComments(d, resource, evaluators[..count - 1]);
    assert prior.evidence + [CONTEXT] == d.evidence + Contexts(count);
    PythonReads(prior, resource, d.evidence, count, prior.executions, minimum);
  }

  /** A better confidence only helps. */
  lemma ConfidenceOnlyHelps(resource: Resource, evidence: seq<Item>, action: Action, minimum: real, low: real,
                            high: real)
    requires low <= high
    ensures PythonAnswer(resource, evidence, action, minimum, low).allowed ==>
              PythonAnswer(resource, evidence, action, minimum, high).allowed
    ensures !IsRemediation(action) ==>
              PythonAnswer(resource, evidence, action, minimum, low).allowed
              == PythonAnswer(resource, evidence, action, minimum, high).allowed
  {
    hide EvaluatePolicy, RunVerifier, Defensible, DetectConflicts, MissingFromEvidence, OwnerKnown;
    var missing, conflicts, owner := MissingFromEvidence(evidence), DetectConflicts(evidence),
                                     OwnerKnown(resource, evidence);
    if IsRemediation(action) {
      RemediationAllowedIff(resource, evidence, missing, action, conflicts, owner, Some(low), minimum);
      RemediationAllowedIff(resource, evidence, missing, action, conflicts, owner, Some(high), minimum);
    } else {
      OtherActionsAllowedIff(resource, evidence, missing, action, conflicts, owner, Some(low), minimum);
      OtherActionsAllowedIff(resource, evidence, missing, action, conflicts, owner, Some(high), minimum);
    }
  }

  // ----- exactly when the Python policy denies a comment -----

  /** What the Python policy still asks of an action that the evidence already calls for. */
  predicate Passes(resource: Resource, evidence: seq<Item>, action: Action, minimum: real, confidence: real) {
    match action
    case Keep => true
    case Downsize => resource.hasProposedType && OwnerKnown(resource, evidence) && confidence >= minimum
    case Schedule => !resource.destructive && OwnerKnown(resource, evidence) && confidence >= minimum
    case _ => false
  }

  /** Savings need both prices. */
  lemma SavingsHavePrices(evidence: seq<Item>)
    ensures LacksSavings(evidence) <==> MonthlySavings(evidence) <= 0.0
  {
  }

  /** High conflicts that no evidence could settle are the active dependencies. */
  lemma HighIsActiveUnlessAsked(evidence: seq<Item>)
    ensures var conflicts := DetectConflicts(evidence);
            && (HasHigh(conflicts) && !UnresolvedContextConflict(conflicts) ==> ActiveDependencies(evidence))
            && (Claims(conflicts, JiraGitConflict) ==> UnresolvedContextConflict(conflicts))
            && (UnresolvedContextConflict(conflicts) ==> HasHigh(conflicts))
  {
    hide DetectConflicts, ActiveDependencies;
    ClaimedIff(evidence);
    var conflicts := DetectConflicts(evidence);
    if HasHigh(conflicts) && !UnresolvedContextConflict(conflicts) {
      assert Claims(conflicts, ActiveDependencyRisk);
    }
  }

  /** What is behind an action that the evidence calls for. */
  lemma ChoiceFacts(resource: Resource, evidence: seq<Item>)
    ensures var action, missing, conflicts := Choice(resource, evidence), MissingFromEvidence(evidence),
                                              DetectConflicts(evidence);
            && (action == Abstain ==> ActiveDependencies(evidence))
            && (IsRemediation(action) ==> !CriticalMissing(missing))
            && (action == Downsize ==>
                  && AverageCpu(evidence).Some?
                  && (Defensible(resource, evidence, conflicts, action) <==> resource.hasProposedType))
            && (action == Schedule ==> (Defensible(resource, evidence, conflicts, action) <==> !resource.destructive))
  {
    hide DetectConflicts, MissingFromEvidence, UnresolvedContextConflict, HasHigh, Claims, ActiveDependencies;
    hide MonthlySavings;
    hide LacksSavings, SupportsIntermittentUse;
    HighIsActiveUnlessAsked(evidence);
    SavingsHavePrices(evidence);
  }

  lemma ChoiceAllowedIff(resource: Resource, evidence: seq<Item>, minimum: real, confidence: real)
    requires !resource.production
    ensures var action := Choice(resource, evidence);
            PythonAnswer(resource, evidence, action, minimum, confidence).allowed
            <==> Passes(resource, evidence, action, minimum, confidence)
  {
    hide EvaluatePolicy, RunVerifier, DetectConflicts, MissingFromEvidence, OwnerKnown, Choice, Defensible;
    hide ActiveDependencies;
    hide CriticalMissing;
    var missing, conflicts := MissingFromEvidence(evidence), DetectConflicts(evidence);
    var action, owner := Choice(resource, evidence), OwnerKnown(resource, evidence);
    ChoiceFacts(resource, evidence);
    ChoiceAsksIff(resource, evidence);
    if IsRemediation(action) {
      RemediationAllowedIff(resource, evidence, missing, action, conflicts, owner, Some(confidence), minimum);
    } else {
      OtherActionsAllowedIff(resource, evidence, missing, action, conflicts, owner, Some(confidence), minimum);
    }
  }

  lemma BlockIsDenied(resource: Resource, evidence: seq<Item>, minimum: real, confidence: real)
    requires HardBlocked(resource)
    ensures !PythonAnswer(resource, evidence, Blocked, minimum, confidence).allowed
  {
    hide EvaluatePolicy, RunVerifier, DetectConflicts, MissingFromEvidence, OwnerKnown;
    OtherActionsAllowedIff(resource, evidence, MissingFromEvidence(evidence), Blocked, DetectConflicts(evidence),
                           OwnerKnown(resource, evidence), Some(confidence), minimum);
  }

  /** The stored decision, evidence and resource for which that many comments end in an allowed decision. */
  predicate CommentsPass(d: Decision, resource: Resource, count: nat, minimum: real) {
    var action := Settled(d, resource, count);
    Passes(resource, d.evidence, action, minimum, ProvisionalFor(resource, d.evidence, count, action, d.selectedTools))
  }

  /** When comments under the Python policy end in an allowed decision, for every stored decision: what they settle on
      keeps the change, or is a remediation with a known owner and enough confidence, with the proposed type if it
      downsizes and not of a destructive change if it schedules. */
  lemma CommentsAllowedIff(d: Decision, resource: Resource, count: nat, minimum: real)
    requires count >= 1
    ensures AfterComments(d, resource, PythonTimes(minimum, count)).policy.allowed
            <==> CommentsPass(d, resource, count, minimum)
  {
    hide PythonAnswer, ProvisionalFor, AfterComments, Choice, PythonEvaluator, OwnerKnown, MustRequest;
    PythonCommentsRead(d, resource, count, minimum);
    var action := Settled(d, resource, count);
    var confidence := ProvisionalFor(resource, d.evidence, count, action, d.selectedTools);
    if action == Choice(resource, d.evidence) && !resource.production {
      ChoiceAllowedIff(resource, d.evidence, minimum, confidence);
    } else {
      BlockIsDenied(resource, d.evidence, minimum, confidence);
    }
  }

  /** A recalculation under the Python policy, likewise. */
  lemma RecalculationAllowedIff(prior: Decision, resource: Resource, evidence: seq<Item>, executions: seq<Execution>,
                                minimum: real)
    ensures var d := Recalculate(prior, resource, evidence, executions, PythonEvaluator(minimum));
            && d.evidence == evidence && d.selectedTools == prior.selectedTools
            && d.preferred == (if RecalculationBlocks(prior, resource) then Blocked else Choice(resource, evidence))
            && (d.policy.allowed <==>
                  Passes(resource, evidence, d.preferred, minimum,
                         ProvisionalFor(resource, evidence, 0, d.preferred, prior.selectedTools)))
  {
    hide PythonAnswer, ProvisionalFor, PythonEvaluator, OwnerKnown, Recalculate, MustRequest, MayAbstain, DownsizeFacts;
    hide ScheduleFacts;
    hide MissingFromEvidence, DetectConflicts;
    assert evidence + Contexts(0) == evidence;
    RecalculatedReads(prior, resource, evidence, 0, executions, PythonEvaluator(minimum));
    RecalculatedCarries(prior, resource, evidence, executions, PythonEvaluator(minimum));
    PythonReads(prior, resource, evidence, 0, executions, minimum);
    var d := Recalculate(prior, resource, evidence, executions, PythonEvaluator(minimum));
    var confidence := ProvisionalFor(resource, evidence, 0, d.preferred, prior.selectedTools);
    if RecalculationBlocks(prior, resource) {
      BlockIsDenied(resource, evidence, minimum, confidence);
    } else {
      ChoiceAllowedIff(resource, evidence, minimum, confidence);
    }
  }

  lemma PassesGrows(resource: Resource, evidence: seq<Item>, action: Action, minimum: real, few: nat, many: nat,
                    tools: seq<Source>)
    requires few <= many
    requires Passes(resource, evidence, action, minimum, ProvisionalFor(resource, evidence, few, action, tools))
    ensures Passes(resource, evidence, action, minimum, ProvisionalFor(resource, evidence, many, action, tools))
  {
    hide ProvisionalFor, OwnerKnown;
    ProvisionalGrows(resource, evidence, few, many, action, tools);
  }

  /** Within one recalculation, context never blocks: what the Python policy allows over some evidence, it allows with
      any number of comments in it, for the same action. */
  lemma ContextNeverBlocks(prior: Decision, resource: Resource, evidence: seq<Item>, count: nat,
                           executions: seq<Execution>, minimum: real)
    ensures var without := Recalculate(prior, resource, evidence, executions, PythonEvaluator(minimum));
            var with := Recalculate(prior, resource, evidence + Contexts(count), executions, PythonEvaluator(minimum));
            with.preferred == without.preferred && (without.policy.allowed ==> with.policy.allowed)
  {
    hide Recalculate, PythonAnswer, ProvisionalFor, ExpectedAction, PythonEvaluator, RunVerifier, GenerateAlternatives;
    var evaluate := PythonEvaluator(minimum);
    var action := Recalculate(prior, resource, evidence, executions, evaluate).preferred;
    assert evidence + Contexts(0) == evidence;
    RecalculatedReads(prior, resource, evidence, 0, executions, evaluate);
    RecalculatedReads(prior, resource, evidence, count, executions, evaluate);
    PythonReads(prior, resource, evidence, 0, executions, minimum);
    PythonReads(prior, resource, evidence, count, executions, minimum);
    ProvisionalGrows(resource, evidence, 0, count, action, prior.selectedTools);
    ConfidenceOnlyHelps(resource, evidence, action, minimum,
                        ProvisionalFor(resource, evidence, 0, action, prior.selectedTools),
                        ProvisionalFor(resource, evidence, count, action, prior.selectedTools));
  }

  /** When comments deny a decision that a recalculation had left allowed, be it after an evidence request or an earlier
      comment: exactly if that recalculation waived the block of a destructive change, for the evidence requested
      before, and kept it. */
  lemma CommentsDenyRecalculatedIff(prior: Decision, resource: Resource, evidence: seq<Item>,
                                    executions: seq<Execution>, count: nat, minimum: real)
    requires count >= 1
    ensures var d := Recalculate(prior, resource, evidence, executions, PythonEvaluator(minimum));
            d.policy.allowed && !AfterComments(d, resource, PythonTimes(minimum, count)).policy.allowed
            <==> resource.destructive && prior.preferred == RequestEvidence && Choice(resource, evidence) == Keep
  {
    hide Recalculate, ProvisionalFor, PythonEvaluator, PythonTimes, AfterComments, Choice, OwnerKnown, MustRequest;
    var d := Recalculate(prior, resource, evidence, executions, PythonEvaluator(minimum));
    RecalculationAllowedIff(prior, resource, evidence, executions, minimum);
    CommentsAllowedIff(d, resource, count, minimum);
    ChoiceAsksIff(resource, evidence);
    ChoiceIsUndestructive(resource, evidence);
    if d.policy.allowed && !resource.destructive {
      PassesGrows(resource, evidence, d.preferred, minimum, 0, count, d.selectedTools);
    }
  }

  lemma ChoiceIsUndestructive(resource: Resource, evidence: seq<Item>)
    ensures Choice(resource, evidence) == Downsize ==> !resource.destructive
  {
    hide MustRequest, MayAbstain, ScheduleFacts, MissingFromEvidence, DetectConflicts;
  }

  lemma NothingFailsUnchecked()
    ensures !CriticalFailure([])
  {
  }

  /** Records that are not critical, and findings without a critical failure, do not matter to the plain policy run. */
  lemma PlainIgnores(resource: Resource, evidence: seq<Item>, some: seq<Missing>, all: seq<Missing>, action: Action,
                     conflicts: seq<Conflict>, findings: seq<Finding>)
    requires !CriticalMissing(some) && !CriticalMissing(all) && !CriticalFailure(findings)
    ensures || action == RequestEvidence
            || PlainPolicy(resource, evidence, all, action, [], conflicts)
               == PlainPolicy(resource, evidence, some, action, findings, conflicts)
  {
    hide ActiveDependencies, PeakCpu, AverageCpu, MonthlySavings, ContextReasons, CriticalFailure;
    NothingFailsUnchecked();
  }

  /** The confidence a first decision hands over with its preferred remediation, if it can be defended at all. */
  lemma FirstConfidence(resource: Resource, evidence: seq<Item>, missing: seq<Missing>, action: Action,
                        selected: seq<Source>)
    requires IsRemediation(action) && Defensible(resource, evidence, DetectConflicts(evidence), action)
    requires !CriticalMissing(missing) && !CriticalMissing(MissingFromEvidence(evidence))
    ensures var conflicts := DetectConflicts(evidence);
            CalculateConfidence(evidence, conflicts, PlainPolicy(resource, evidence, missing, action, [], conflicts),
                                selected).final
            == ProvisionalFor(resource, evidence, 0, action, selected)
  {
    hide PlainPolicy, RunVerifier, Defensible, CalculateConfidence, CriticalMissing, CriticalFailure, DetectConflicts;
    hide MissingFromEvidence;
    var conflicts := DetectConflicts(evidence);
    var findings := RunVerifier(resource, evidence, conflicts, action);
    CriticalFailureIff(resource, evidence, conflicts, action);
    PlainIgnores(resource, evidence, MissingFromEvidence(evidence), missing, action, conflicts, findings);
    assert evidence + Contexts(0) == evidence;
  }

  /** The Python policy's answer to an alternative of a first decision. */
  lemma PythonAsked(resource: Resource, evidence: seq<Item>, missing: seq<Missing>, choice: Alternative,
                    selected: seq<Source>,
                    checked: seq<Finding>, minimum: real) returns (confidence: real)
    ensures var conflicts := DetectConflicts(evidence);
            && confidence
               == CalculateConfidence(evidence, conflicts,
                                      PlainPolicy(resource, evidence, missing, choice.action, checked, conflicts),
                                      selected).final
            && Ask(resource, selected, evidence, missing, choice, checked, PythonEvaluator(minimum))
               == EvaluatePolicy(resource, evidence, missing, choice.action,
                                 RunVerifier(resource, evidence, conflicts, choice.action),
                                 conflicts, OwnerKnown(resource, evidence), Some(confidence), minimum)
  {
    hide RunVerifier, EvaluatePolicy, DetectConflicts, OwnerKnown, CalculateConfidence;
    var conflicts := DetectConflicts(evidence);
    confidence := CalculateConfidence(evidence, conflicts,
                                      PlainPolicy(resource, evidence, missing, choice.action, checked, conflicts),
                                      selected).final;
  }

  /** A preferred remediation that the Python policy denies does not pass, and the other way round. */
  lemma FellBackIff(resource: Resource, conflicting: bool, selected: seq<Source>, evidence: seq<Item>,
                    unresolved: seq<Source>, minimum: real)
    ensures var action := FirstChoice(resource, conflicting, evidence, unresolved).action;
            FellBack(resource, conflicting, selected, evidence, unresolved, PythonEvaluator(minimum))
            <==> IsRemediation(action)
                 && !Passes(resource, evidence, action, minimum,
                            ProvisionalFor(resource, evidence, 0, action, selected))
  {
    hide FirstChoice, Choice, Ask, PythonEvaluator, ProvisionalFor, OwnerKnown, RunVerifier, DetectConflicts;
    hide CalculateConfidence;
    hide Defensible, CriticalMissing, PlainPolicy, EvaluatePolicy, MissingFromEvidence, MissingWithUnresolved;
    var choice := FirstChoice(resource, conflicting, evidence, unresolved);
    var action, missing, conflicts := choice.action, MissingWithUnresolved(evidence, unresolved),
                                      DetectConflicts(evidence);
    if IsRemediation(action) {
      FirstChoiceIs(resource, conflicting, evidence, unresolved);
      RemediationNeedsAll(resource, conflicting, evidence, unresolved);
      ChoiceFacts(resource, evidence);
      var confidence := PythonAsked(resource, evidence, missing, choice, selected, [], minimum);
      RemediationAllowedIff(resource, evidence, missing, action, conflicts, OwnerKnown(resource, evidence),
                            Some(confidence), minimum);
      if Defensible(resource, evidence, conflicts, action) {
        FirstConfidence(resource, evidence, missing, action, selected);
      }
    }
  }

  lemma RemediationNeedsAll(resource: Resource, conflicting: bool, evidence: seq<Item>, unresolved: seq<Source>)
    ensures IsRemediation(FirstChoice(resource, conflicting, evidence, unresolved).action) ==>
              !CriticalMissing(MissingWithUnresolved(evidence, unresolved))
  {
    hide GenerateAlternatives, MissingWithUnresolved, DetectConflicts, DownsizeFacts, ScheduleFacts;
    hide MissingFromEvidence, CriticalMissing;
  }

  /** A first decision is allowed under the Python policy exactly if it prefers to keep the change or to remediate, as a
      denied remediation falls back to keeping it. */
  lemma FirstAllowedIff(resource: Resource, conflicting: bool, selected: seq<Source>, executions: seq<Execution>,
                        evidence: seq<Item>, unresolved: seq<Source>, minimum: real)
    ensures var action := FirstChoice(resource, conflicting, evidence, unresolved).action;
            FirstDecision(resource, conflicting, selected, executions, evidence, unresolved,
                          PythonEvaluator(minimum)).policy.allowed
            <==> action == Keep || IsRemediation(action)
  {
    hide FirstChoice, Choice, Ask, PythonEvaluator, OwnerKnown, RunVerifier, DetectConflicts, CalculateConfidence;
    hide PlainPolicy, EvaluatePolicy, MissingFromEvidence, MissingWithUnresolved, GenerateAlternatives;
    hide ActiveDependencies;
    var missing, conflicts, owner := MissingWithUnresolved(evidence, unresolved), DetectConflicts(evidence),
                                     OwnerKnown(resource, evidence);
    var choice := FirstChoice(resource, conflicting, evidence, unresolved);
    FirstPolicy(resource, conflicting, selected, executions, evidence, unresolved, PythonEvaluator(minimum));
    FirstChoiceIs(resource, conflicting, evidence, unresolved);
    ChoiceFacts(resource, evidence);
    ChoiceAsksIff(resource, evidence);
    var confidence := PythonAsked(resource, evidence, missing, choice, selected, [], minimum);
    if IsRemediation(choice.action) {
      var keep := AlternativeFor(resource, evidence, missing, conflicts, Keep);
      var again := PythonAsked(resource, evidence, missing, keep, selected,
                               RunVerifier(resource, evidence, conflicts, Keep), minimum);
      OtherActionsAllowedIff(resource, evidence, missing, Keep, conflicts, owner, Some(again), minimum);
    } else {
      OtherActionsAllowedIff(resource, evidence, missing, choice.action, conflicts, owner, Some(confidence), minimum);
    }
  }

  lemma FirstPolicy(resource: Resource, conflicting: bool, selected: seq<Source>, executions: seq<Execution>,
                    evidence: seq<Item>, unresolved: seq<Source>, evaluate: Evaluator)
    ensures var missing, choice := MissingWithUnresolved(evidence, unresolved),
                                   FirstChoice(resource, conflicting, evidence, unresolved);
            var conflicts := DetectConflicts(evidence);
            var keep := AlternativeFor(resource, evidence, missing, conflicts, Keep);
            var policy := Ask(resource, selected, evidence, missing, choice, [], evaluate);
            FirstDecision(resource, conflicting, selected, executions, evidence, unresolved, evaluate).policy
            == if !policy.allowed && IsRemediation(choice.action)
               then Ask(resource, selected, evidence, missing, keep, RunVerifier(resource, evidence, conflicts, Keep),
                        evaluate)
               else policy
  {
    hide Ask, RunVerifier, GenerateAlternatives, DetectConflicts, CalculateConfidence, MissingWithUnresolved;
  }

  /** When comments deny a first decision that was allowed: exactly if the evidence calls for a remediation that does
      not pass even with the comments. The decision had then fallen back to keeping the change. */
  lemma CommentsDenyFirstIff(resource: Resource, conflicting: bool, selected: seq<Source>, executions: seq<Execution>,
                             evidence: seq<Item>, unresolved: seq<Source>, count: nat, minimum: real)
    requires count >= 1
    ensures var d := FirstDecision(resource, conflicting, selected, executions, evidence, unresolved,
                                   PythonEvaluator(minimum));
            var choice := FirstChoice(resource, conflicting, evidence, unresolved).action;
            var confidence := ProvisionalFor(resource, evidence, count, choice, selected);
            d.policy.allowed && !AfterComments(d, resource, PythonTimes(minimum, count)).policy.allowed
            <==> IsRemediation(choice) && !Passes(resource, evidence, choice, minimum, confidence)
  {
    hide FirstDecision, FirstChoice, ProvisionalFor, PythonEvaluator, PythonTimes, AfterComments, Choice, OwnerKnown;
    hide MustRequest, FellBack;
    var evaluate := PythonEvaluator(minimum);
    var d := FirstDecision(resource, conflicting, selected, executions, evidence, unresolved, evaluate);
    var choice := FirstChoice(resource, conflicting, evidence, unresolved).action;
    CommentsAllowedIff(d, resource, count, minimum);
    FirstDecisionFacts(resource, conflicting, selected, executions, evidence, unresolved, evaluate);
    FirstChoiceIs(resource, conflicting, evidence, unresolved);
    FallBackIsPlain(resource, conflicting, selected, evidence, unresolved, evaluate);
    FirstAllowedIff(resource, conflicting, selected, executions, evidence, unresolved, minimum);
    FellBackIff(resource, conflicting, selected, evidence, unresolved, minimum);
    if IsRemediation(choice)
       && Passes(resource, evidence, choice, minimum, ProvisionalFor(resource, evidence, 0, choice, selected)) {
      PassesGrows(resource, evidence, choice, minimum, 0, count, selected);
    }
    ChoiceAsksIff(resource, evidence);
  }

  /** Under the Python policy, what the first comment left allowed stays allowed through every later one, except for
      exactly the wavering destructive changes that were to be kept. */
  lemma LaterCommentsBlockIff(d: Decision, resource: Resource, count: nat, minimum: real)
    requires count > 1
    ensures var first := AfterComments(d, resource, PythonTimes(minimum, 1));
            var last := AfterComments(d, resource, PythonTimes(minimum, count));
            (first.policy.allowed && !last.policy.allowed)
            <==> Wavers(d, resource) && Choice(resource, d.evidence) == Keep
  {
    hide ProvisionalFor, AfterComments, Choice, OwnerKnown, MustRequest, PythonEvaluator;
    CommentsAllowedIff(d, resource, 1, minimum);
    CommentsAllowedIff(d, resource, count, minimum);
    ChoiceIsUndestructive(resource, d.evidence);
    if !Wavers(d, resource) && CommentsPass(d, resource, 1, minimum) {
      PassesGrows(resource, d.evidence, Settled(d, resource, 1), minimum, 1, count, d.selectedTools);
    }
  }

  /** The stored records name at least the critical evidence that came back unavailable. */
  predicate RecordsGaps(d: Decision) {
    CriticalMissing(MissingFromEvidence(d.evidence)) ==> CriticalMissing(d.missing)
  }

  lemma GapsAreRecorded(resource: Resource, conflicting: bool, selected: seq<Source>, executions: seq<Execution>,
                        evidence: seq<Item>, unresolved: seq<Source>, prior: Decision, alternative: Alternative,
                        evaluate: Evaluator)
    ensures RecordsGaps(FirstDecision(resource, conflicting, selected, executions, evidence, unresolved, evaluate))
    ensures RecordsGaps(Recalculate(prior, resource, evidence, executions, evaluate))
    ensures RecordsGaps(prior) ==> RecordsGaps(Modified(prior, resource, alternative, evaluate))
  {
    hide Ask, RunVerifier, GenerateAlternatives, DetectConflicts, CalculateConfidence, MissingWithUnresolved;
    hide MissingFromEvidence;
    hide CriticalMissing, ModifiedPolicy;
    UnresolvedOnlyAsksMore(evidence, unresolved);
  }

  /** The plain policy run of a remediation that can be defended. */
  lemma PlainPasses(resource: Resource, evidence: seq<Item>, missing: seq<Missing>, action: Action,
                    conflicts: seq<Conflict>)
    requires IsRemediation(action) && Defensible(resource, evidence, conflicts, action) && !CriticalMissing(missing)
    requires action == Downsize ==> AverageCpu(evidence).Some?
    ensures PlainPolicy(resource, evidence, missing, action, RunVerifier(resource, evidence, conflicts, action),
                        conflicts)
         == PolicyResult(true, AllPassed, [], true)
  {
    hide Blocking, RunVerifier, Defensible, CriticalMissing, AverageCpu;
    RemediationAllowedIff(resource, evidence, missing, action, conflicts, true, None, 0.7);
  }

  /** What an allowed modification shows, and the confidence it was allowed with. */
  lemma ModifiedFacts(stored: Decision, resource: Resource, alternative: Alternative, minimum: real)
    requires Coherent(resource, stored) && alternative in stored.alternatives && alternative.Eligible()
    requires IsRemediation(alternative.action)
             && Modified(stored, resource, alternative, PythonEvaluator(minimum)).policy.allowed
    ensures var conflicts := DetectConflicts(stored.evidence);
            && FactsFor(alternative.action, resource, stored.evidence, stored.missing, conflicts)
            && Defensible(resource, stored.evidence, conflicts, alternative.action)
            && !CriticalMissing(stored.missing) && OwnerKnown(resource, stored.evidence)
            && CalculateConfidence(stored.evidence, conflicts, PolicyResult(true, AllPassed, [], true),
                                   stored.selectedTools).final >= minimum
  {
    hide RunVerifier, EvaluatePolicy, DetectConflicts, OwnerKnown, CalculateConfidence, Defensible, CriticalMissing;
    hide PlainPolicy;
    hide FactsFor, GenerateAlternatives, AverageCpu;
    var conflicts := DetectConflicts(stored.evidence);
    GeneratedIff(resource, stored.evidence, stored.missing, conflicts, alternative);
    EligibleIff(alternative.action, resource, stored.evidence, stored.missing, conflicts);
    var plain := PlainPolicy(resource, stored.evidence, stored.missing, alternative.action,
                             RunVerifier(resource, stored.evidence, conflicts, alternative.action), conflicts);
    var confidence := CalculateConfidence(stored.evidence, conflicts, plain, stored.selectedTools).final;
    RemediationAllowedIff(resource, stored.evidence, stored.missing, alternative.action, conflicts,
                          OwnerKnown(resource, stored.evidence), Some(confidence), minimum);
    PlainPasses(resource, stored.evidence, stored.missing, alternative.action, conflicts);
  }

  /** When comments deny a modification that the Python policy allowed, for a reviewer who chose an eligible
      remediation: exactly if that was to schedule although a conflict still calls for evidence, or although downsizing,
      its proposed type unknown, comes first. */
  lemma CommentsDenyModifiedIff(stored: Decision, resource: Resource, alternative: Alternative, count: nat,
                                minimum: real)
    requires count >= 1 && RecordsGaps(stored)
    requires Coherent(resource, stored) && alternative in stored.alternatives && alternative.Eligible()
             && IsRemediation(alternative.action)
    ensures var d := Modified(stored, resource, alternative, PythonEvaluator(minimum));
            var conflicts := DetectConflicts(stored.evidence);
            d.policy.allowed ==>
              (!AfterComments(d, resource, PythonTimes(minimum, count)).policy.allowed
               <==> && alternative.action == Schedule
                    && (UnresolvedContextConflict(conflicts)
                        || (DownsizeFacts(resource, stored.evidence, conflicts) && !resource.hasProposedType)))
  {
    hide PythonEvaluator, PythonTimes, AfterComments, Modified, OwnerKnown, ProvisionalFor, DetectConflicts;
    hide MissingFromEvidence;
    hide CalculateConfidence, Coherent, CriticalMissing, UnresolvedContextConflict, HasHigh, Claims, ActiveDependencies;
    hide LacksHeadroom;
    hide LacksSavings, Choice;
    var d := Modified(stored, resource, alternative, PythonEvaluator(minimum));
    ModifiedKeeps(stored, resource, alternative, PythonEvaluator(minimum));
    if d.policy.allowed {
      ModifiedFacts(stored, resource, alternative, minimum);
      HighIsActiveUnlessAsked(stored.evidence);
      CommentsAllowedIff(d, resource, count, minimum);
      var action := Settled(d, resource, count);
      ModifiedChoice(resource, stored.evidence, alternative.action);
      ChoiceFacts(resource, stored.evidence);
      if IsRemediation(action) && Defensible(resource, stored.evidence, DetectConflicts(stored.evidence), action) {
        DefensibleConfidence(resource, stored.evidence, action, count, d.selectedTools);
      }
    }
  }

  lemma ModifiedKeeps(stored: Decision, resource: Resource, alternative: Alternative, evaluate: Evaluator)
    ensures var d := Modified(stored, resource, alternative, evaluate);
            d.evidence == stored.evidence && d.preferred == alternative.action
            && d.selectedTools == stored.selectedTools
  {
    hide ModifiedPolicy, RunVerifier, CalculateConfidence;
  }

  /** What the evidence calls for where an eligible remediation can be defended. */
  lemma ModifiedChoice(resource: Resource, evidence: seq<Item>, action: Action)
    requires !HardBlocked(resource) && IsRemediation(action) && !CriticalMissing(MissingFromEvidence(evidence))
    requires FactsFor(action, resource, evidence, [], DetectConflicts(evidence))
    ensures var conflicts := DetectConflicts(evidence);
            Choice(resource, evidence) == if UnresolvedContextConflict(conflicts) then RequestEvidence
                                          else if DownsizeFacts(resource, evidence, conflicts) then Downsize
                                          else Schedule
  {
    hide DetectConflicts, MissingFromEvidence, CriticalMissing, ActiveDependencies, SupportsIntermittentUse;
    hide FreshUtilization;
    HighIsActiveUnlessAsked(evidence);
  }

  /** The confidence handed over with a remediation the evidence calls for, if it can be defended. */
  lemma DefensibleConfidence(resource: Resource, evidence: seq<Item>, action: Action, count: nat, tools: seq<Source>)
    requires IsRemediation(action) && Choice(resource, evidence) == action
    requires Defensible(resource, evidence, DetectConflicts(evidence), action)
    ensures ProvisionalFor(resource, evidence, count, action, tools)
         >= CalculateConfidence(evidence, DetectConflicts(evidence), PolicyResult(true, AllPassed, [], true),
                                tools).final
  {
    hide Choice, Defensible, DetectConflicts, MissingFromEvidence, CriticalMissing, RunVerifier, PlainPolicy;
    hide CalculateConfidence;
    ChoiceFacts(resource, evidence);
    PlainPasses(resource, evidence, MissingFromEvidence(evidence), action, DetectConflicts(evidence));
    assert evidence + Contexts(0) == evidence;
    ProvisionalGrows(resource, evidence, 0, count, action, tools);
  }
}
