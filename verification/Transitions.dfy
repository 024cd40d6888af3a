/** Which statuses admit which review action, where an applied one leads, and what that means for whole runs
    (core/workflow_service.py, `review_run` and `cancel_goal`; core/human_review.py). */
module Transitions {
  import opened Wrappers
  import opened Evidence
  import opened ConflictDetector
  import opened AlternativeGenerator
  import opened Verifier
  import opened ReasoningEngine
  import opened ReviewWorkflow
  import opened ReviewSafety

  const COMMENTS := {AddContext, AddFollowUpContext}

  /** The review actions a run in this status is open to. */
  function OpenTo(status: RunStatus): set<ReviewKind> {
    match status
    case PendingHumanReview => {Approve, Reject, AskEvidence, Modify} + COMMENTS
    case NeedsMoreEvidence => {Reject, AskEvidence, Modify} + COMMENTS
    case RunAbstained => {AskEvidence} + COMMENTS
    case PrCreated => {RevokeApproval, ReopenCase}
    case Approved => {RevokeApproval, ReopenCase} + COMMENTS
    case Rejected => {ReopenCase}
    case ApprovalRevoked => {ReopenCase} + COMMENTS
    case _ => COMMENTS
  }

  /** The decision a run shows for approval: allowed, subject to approval, a remediation, and without a failed critical
      check. */
  predicate Approvable(d: Decision) {
    && d.policy.allowed && d.policy.requiresApproval && IsRemediation(d.preferred)
    && forall f <- d.findings :: !(f.status == Failed && f.severity == Critical)
  }

  /** A pull request on GitHub is asked for. */
  predicate GoesRemote(s: RunState, world: World) {
    s.github && world.remote != RemoteOff
  }

  /** What an action needs besides the status. */
  ghost predicate Supplied(s: RunState, request: Request, world: World) {
    match request.kind
    case Approve =>
      && s.decision.Some? && Approvable(s.decision.value) && s.mockPr.None?
      && (GoesRemote(s, world) ==> world.remote != RemoteRaises)
      && (!GoesRemote(s, world) && !(s.readOnly && !s.github) ==>
            exists a <- s.decision.value.alternatives :: a.action == s.decision.value.preferred)
    case AskEvidence =>
      s.decision.Some? && request.sources != [] && forall x <- request.sources :: x in world.registered
    case AddContext => s.decision.Some? && request.hasContext
    case AddFollowUpContext => s.decision.Some? && request.hasContext
    case Modify =>
      && s.decision.Some? && request.modified.Some? && IsRemediation(request.modified.value)
      && var d := s.decision.value;
         exists k ::
           && IsFirst(d.alternatives, request.modified.value, k) && d.alternatives[k].Eligible()
           && ModifiedPolicy(d, s.resource, d.alternatives[k], world.evaluate).allowed
    case _ => true
  }

  /** The first alternative for the action. */
  predicate IsFirst(alternatives: seq<Alternative>, action: Action, k: int) {
    && 0 <= k < |alternatives| && alternatives[k].action == action
    && forall j | 0 <= j < k :: alternatives[j].action != action
  }

  lemma FirstIsFound(alternatives: seq<Alternative>, action: Action, k: int)
    requires IsFirst(alternatives, action, k)
    ensures FirstWith(alternatives, action, false) == Some(alternatives[k])
  {
    assert alternatives[k] in alternatives;
    var found := FirstWithIsFirst(alternatives, action, false);
    assert alternatives[found].action == action;
  }

  /** A review action is applied exactly if the run's status is open to it and it comes with what it needs. */
  lemma ReviewAppliesIff(s: RunState, request: Request, world: World)
    ensures Act(s, request, world).Success? <==> request.kind in OpenTo(s.status) && Supplied(s, request, world)
  {
    hide Act;
    match request.kind
    case Approve => ApprovalAppliesExactlyIf(s, request, world);
    case Modify => ModificationAppliesIff(s, request, world);
    case AskEvidence => RevisionAppliesIff(s, request, world);
    case AddContext => RevisionAppliesIff(s, request, world);
    case AddFollowUpContext => RevisionAppliesIff(s, request, world);
    case _ => ClosingAppliesIff(s, request, world);
  }

  lemma ApprovalAppliesExactlyIf(s: RunState, request: Request, world: World)
    requires request.kind == Approve
    ensures Act(s, request, world).Success? <==> request.kind in OpenTo(s.status) && Supplied(s, request, world)
  {
    hide Log, Repeat;
  }

  lemma ClosingAppliesIff(s: RunState, request: Request, world: World)
    requires request.kind in {Reject, RevokeApproval, ReopenCase}
    ensures Act(s, request, world).Success? <==> request.kind in OpenTo(s.status)
  {
    hide Log;
  }

  lemma RevisionAppliesIff(s: RunState, request: Request, world: World)
    requires request.kind in {AskEvidence} + COMMENTS
    ensures Act(s, request, world).Success? <==> request.kind in OpenTo(s.status) && Supplied(s, request, world)
  {
    hide Log, Repeat, PolicyKinds, Recalculate, Without;
  }

  /** The lookup finds the first alternative, if there is one. */
  lemma LookupIsFirst(alternatives: seq<Alternative>, action: Action)
    ensures var found := FirstWith(alternatives, action, false);
            && (found.Some? <==> exists k :: IsFirst(alternatives, action, k))
            && (forall k :: IsFirst(alternatives, action, k) ==> found == Some(alternatives[k]))
  {
    hide FirstWith;
    if FirstWith(alternatives, action, false).Some? {
      var k := FirstWithIsFirst(alternatives, action, false);
      assert IsFirst(alternatives, action, k);
    }
    forall k | IsFirst(alternatives, action, k)
      ensures FirstWith(alternatives, action, false) == Some(alternatives[k]) {
      FirstIsFound(alternatives, action, k);
    }
  }

  lemma ModificationAppliesIff(s: RunState, request: Request, world: World)
    requires request.kind == Modify
    ensures Act(s, request, world).Success? <==> request.kind in OpenTo(s.status) && Supplied(s, request, world)
  {
    hide Log, Repeat, PolicyKinds, Modified, ModifiedPolicy, FirstWith, IsFirst;
    if CanModify(s, request).None? {
      var d := s.decision.value;
      LookupIsFirst(d.alternatives, request.modified.value);
      var found := FirstWith(d.alternatives, request.modified.value, false);
      if found.Some? { ModifiedAsks(d, s.resource, found.value, world.evaluate); }
    }
  }

  lemma ModifiedAsks(d: Decision, resource: Resource, alternative: Alternative, evaluate: Evaluator)
    ensures Modified(d, resource, alternative, evaluate).policy == ModifiedPolicy(d, resource, alternative, evaluate)
  {
    hide ModifiedPolicy;
  }

  /** Where an applied action leads. */
  function LeadsTo(s: RunState, request: Request, world: World): set<RunStatus> {
    match request.kind
    case Approve =>
      if s.readOnly && !s.github then {ProposalPrepared}
      else if GoesRemote(s, world) && world.remote == RemoteInvalid then {FailedSafely}
      else {PrCreated}
    case Reject => {Rejected}
    case Modify => {PendingHumanReview}
    case RevokeApproval => {ApprovalRevoked}
    case ReopenCase => {Reopened}
    case _ => {PendingHumanReview, NeedsMoreEvidence, RunAbstained, RunKept, RunBlocked}
  }

  /** The last audit event of an applied action. */
  function Recorded(s: RunState, request: Request, world: World): EventKind {
    match request.kind
    case Approve =>
      if s.readOnly && !s.github then ProposalEvent
      else if !GoesRemote(s, world) then MockPrRecorded
      else if world.remote == RemoteInvalid then RemoteValidationFailed
      else RemotePrRecorded
    case Reject => HumanReviewReceived
    case Modify => ActionModified
    case RevokeApproval => ApprovalRevokedEvent
    case ReopenCase => CaseReopened
    case _ => WorkflowResumed
  }

  /** How many audit events an applied action adds. An evaluation of the policy leaves four, one more if it fell back.
      */
  function Events(s: RunState, request: Request, world: World): nat {
    var policy := if world.policyFellBack then 5 else 4;
    match request.kind
    case Approve =>
      if !GoesRemote(s, world) then 2
      else if world.remote.RemoteCreated? && !world.remote.reused then 5
      else 3
    case AskEvidence => 3 + world.toolEvents + policy
    case AddContext => 3 + policy
    case AddFollowUpContext => 3 + policy
    case Modify => 1 + policy
    case _ => 1
  }

  lemma LoggedLast(s: RunState, kinds: seq<EventKind>)
    requires kinds != []
    ensures Log(s, kinds).audit != [] && |Log(s, kinds).audit| == |s.audit| + |kinds|
            && Log(s, kinds).audit[|Log(s, kinds).audit| - 1].kind == kinds[|kinds| - 1]
  {
  }

  /** An applied action leads where it should, adds its review record, ends the audit trail with its event, and changes
      the decision and the pull requests only where that is its purpose. */
  predicate Applies(s: RunState, t: RunState, request: Request, world: World) {
    && t.status in LeadsTo(s, request, world)
    && t.reviews == s.reviews + [Review(request.kind, request.reviewer)]
    && |t.audit| == |s.audit| + Events(s, request, world) && t.audit[|t.audit| - 1].kind == Recorded(s, request, world)
    && (request.kind in {Approve, Reject, RevokeApproval, ReopenCase} ==> t.decision == s.decision)
    && (request.kind != Approve ==> t.mockPr == s.mockPr && t.realPr == s.realPr)
    && (request.kind == Approve ==>
          && (t.mockPr.Some? <==> t.status == PrCreated && !GoesRemote(s, world))
          && (GoesRemote(s, world) && t.status == PrCreated ==>
                world.remote.RemoteCreated? && t.realPr == Some(world.remote.pr))
          && (!(GoesRemote(s, world) && t.status == PrCreated) ==> t.realPr == s.realPr))
    && (request.kind == Modify ==>
          t.decision.Some? && Some(t.decision.value.preferred) == request.modified && t.decision.value.policy.allowed)
  }

  lemma ReviewLeadsTo(s: RunState, request: Request, world: World)
    ensures var r := Act(s, request, world); r.Success? ==> Applies(s, r.value, request, world)
  {
    hide Act, Applies;
    match request.kind
    case Approve => ApprovalLeadsTo(s, request, world);
    case Modify => ModificationLeadsTo(s, request, world);
    case AskEvidence => RevisionLeadsTo(s, request, world);
    case AddContext => RevisionLeadsTo(s, request, world);
    case AddFollowUpContext => RevisionLeadsTo(s, request, world);
    case _ => ClosingLeadsTo(s, request, world);
  }

  lemma ApprovalLeadsTo(s: RunState, request: Request, world: World)
    requires request.kind == Approve
    ensures var r := Act(s, request, world); r.Success? ==> Applies(s, r.value, request, world)
  {
    hide Act, Applies;
    if s.readOnly && !s.github {
      ProposalLeadsTo(s, request, world);
    } else if GoesRemote(s, world) {
      RemoteLeadsTo(s, request, world);
    } else {
      SimulationLeadsTo(s, request, world);
    }
  }

  lemma ProposalLeadsTo(s: RunState, request: Request, world: World)
    requires request.kind == Approve && s.readOnly && !s.github
    ensures var r := Act(s, request, world); r.Success? ==> Applies(s, r.value, request, world)
  {
    hide CriticalFailure, MockPrFor, Log, Repeat;
    var r := Log(Reviewed(s, request), [HumanReviewReceived]);
    LoggedLast(r.(status := ProposalPrepared), [ProposalEvent]);
  }

  lemma RemoteLeadsTo(s: RunState, request: Request, world: World)
    requires request.kind == Approve && GoesRemote(s, world)
    ensures var r := Act(s, request, world); r.Success? ==> Applies(s, r.value, request, world)
  {
    hide Act, Applies;
    match world.remote
    case RemoteCreated(pr, reused) => CreationLeadsTo(s, request, world, pr, reused);
    case RemoteInvalid => ValidationLeadsTo(s, request, world);
    case _ => CrashLeadsNowhere(s, request, world);
  }

  lemma CrashLeadsNowhere(s: RunState, request: Request, world: World)
    requires request.kind == Approve && GoesRemote(s, world) && world.remote == RemoteRaises
    ensures Act(s, request, world).Failure?
  {
    hide CanApprove, MockPrFor, Log;
  }

  lemma ValidationLeadsTo(s: RunState, request: Request, world: World)
    requires request.kind == Approve && GoesRemote(s, world) && world.remote == RemoteInvalid
    ensures var r := Act(s, request, world); r.Success? ==> Applies(s, r.value, request, world)
  {
    hide CriticalFailure, MockPrFor, Log, Repeat;
    var started := Log(Log(Reviewed(s, request), [HumanReviewReceived]), [RemoteValidationStarted]);
    LoggedLast(started.(status := FailedSafely), [RemoteValidationFailed]);
  }

  lemma CreationLeadsTo(s: RunState, request: Request, world: World, pr: nat, reused: bool)
    requires request.kind == Approve && GoesRemote(s, world) && world.remote == RemoteCreated(pr, reused)
    ensures var r := Act(s, request, world); r.Success? ==> Applies(s, r.value, request, world)
  {
    hide CriticalFailure, MockPrFor, Log, Repeat;
    var started := Log(Log(Reviewed(s, request), [HumanReviewReceived]), [RemoteValidationStarted]);
    var count := if reused then 1 else 3;
    RepeatedLast(RemotePrRecorded, count);
    LoggedLast(started.(realPr := Some(pr), status := PrCreated), Repeat(RemotePrRecorded, count));
  }

  lemma SimulationLeadsTo(s: RunState, request: Request, world: World)
    requires request.kind == Approve && !GoesRemote(s, world) && !(s.readOnly && !s.github)
    ensures var r := Act(s, request, world); r.Success? ==> Applies(s, r.value, request, world)
  {
    hide CriticalFailure, MockPrFor, Log, Repeat;
    if s.decision.Some? {
      var r := Log(Reviewed(s, request), [HumanReviewReceived]);
      LoggedLast(r.(mockPr := MockPrFor(s.decision.value, world.prNumber), status := PrCreated), [MockPrRecorded]);
    }
  }

  lemma RepeatedLast(kind: EventKind, count: nat)
    requires count > 0
    ensures Repeat(kind, count) != [] && Repeat(kind, count)[count - 1] == kind && |Repeat(kind, count)| == count
  {
  }

  lemma ModificationLeadsTo(s: RunState, request: Request, world: World)
    requires request.kind == Modify
    ensures var r := Act(s, request, world); r.Success? ==> Applies(s, r.value, request, world)
  {
    hide Modified, PolicyKinds, Log, FirstWith;
    PolicyIsCounted(world);
    if CanModify(s, request).None? {
      var alternative := FirstWith(s.decision.value.alternatives, request.modified.value, false);
      if alternative.Some? {
        var revised := Modified(s.decision.value, s.resource, alternative.value, world.evaluate);
        ModifiedPrefers(s.decision.value, s.resource, alternative.value, world.evaluate);
        LoggedLast(Reviewed(s, request).(decision := Some(revised), status := PendingHumanReview),
                   PolicyKinds(world) + [ActionModified]);
      }
    }
  }

  lemma PolicyIsCounted(world: World)
    ensures |PolicyKinds(world)| == if world.policyFellBack then 5 else 4
  {
  }

  lemma ToolsAreCounted(world: World)
    ensures |Repeat(ToolEvent, world.toolEvents)| == world.toolEvents
  {
  }

  lemma ModifiedPrefers(d: Decision, resource: Resource, alternative: Alternative, evaluate: Evaluator)
    ensures Modified(d, resource, alternative, evaluate).preferred == alternative.action
  {
    hide ModifiedPolicy;
  }

  lemma RevisionLeadsTo(s: RunState, request: Request, world: World)
    requires request.kind in {AskEvidence} + COMMENTS
    ensures var r := Act(s, request, world); r.Success? ==> Applies(s, r.value, request, world)
  {
    hide Act, Applies;
    if request.kind == AskEvidence { RequestLeadsTo(s, request, world); } else { CommentLeadsTo(s, request, world); }
  }

  lemma RequestLeadsTo(s: RunState, request: Request, world: World)
    requires request.kind == AskEvidence
    ensures var r := Act(s, request, world); r.Success? ==> Applies(s, r.value, request, world)
  {
    hide Log, Repeat, PolicyKinds, Recalculate, Without;
    PolicyIsCounted(world);
    ToolsAreCounted(world);
    if s.decision.Some? {
      var revised := RevisedBy(s, request, world);
      var t := Reviewed(s, request).(decision := Some(revised), status := MapFinalStatus(revised.finalStatus));
      LoggedLast(t, [EvidenceRequested, PlanRevised] + Repeat(ToolEvent, world.toolEvents) + PolicyKinds(world)
                    + [WorkflowResumed]);
    }
  }

  lemma CommentLeadsTo(s: RunState, request: Request, world: World)
    requires request.kind in COMMENTS
    ensures var r := Act(s, request, world); r.Success? ==> Applies(s, r.value, request, world)
  {
    hide Log, Repeat, PolicyKinds, Recalculate;
    PolicyIsCounted(world);
    if s.decision.Some? {
      var revised := RevisedBy(s, request, world);
      var t := Reviewed(s, request).(decision := Some(revised), status := MapFinalStatus(revised.finalStatus));
      LoggedLast(t, PolicyKinds(world) + [HumanContextAdded, PlanRevised, WorkflowResumed]);
    }
  }

  lemma ClosingLeadsTo(s: RunState, request: Request, world: World)
    requires request.kind in {Reject, RevokeApproval, ReopenCase}
    ensures var r := Act(s, request, world); r.Success? ==> Applies(s, r.value, request, world)
  {
  }

  /** Where cancelling is applied, and that it leaves the decision, the reviews and the pull requests alone. */
  lemma CancelAppliesIff(s: RunState)
    ensures CancelRun(s).Success? <==> s.status !in {Approved, PrCreated, RemediationPrCreated}
    ensures CancelRun(s).Success? ==>
              var t := CancelRun(s).value;
              && t == s.(status := Canceled, audit := t.audit)
              && t.audit != [] && t.audit[|t.audit| - 1].kind == GoalCanceled
  {
  }

  // ----- whole runs -----

  /** A step that this status does not let through. */
  predicate Barred(status: RunStatus, step: Step) {
    match step
    case HandleReview(_, request, _) => request.kind !in OpenTo(status)
    case Cancel => status in {Approved, PrCreated, RemediationPrCreated}
    case _ => true
  }

  lemma BarredStepChangesNothing(c: Case, step: Step)
    requires c.analyzed && Barred(c.run.status, step)
    ensures Next(c, step) == c
  {
    hide Act, CancelRun, OpenTo;
    match step
    case HandleReview(_, request, world) => ReviewAppliesIff(c.run, request, world);
    case Cancel => CancelAppliesIff(c.run);
    case _ =>
  }

  /** A run waits for a step its status admits: whatever else is tried leaves it as it was. */
  lemma {:induction false} RunWaits(c: Case, steps: seq<Step>)
    requires c.analyzed && forall step <- steps :: Barred(c.run.status, step)
    ensures Run(c, steps) == c
  {
    hide Next, Barred;
    if steps != [] {
      assert steps[|steps| - 1] in steps && forall step <- steps[..|steps| - 1] :: step in steps;
      RunWaits(c, steps[..|steps| - 1]);
      BarredStepChangesNothing(c, steps[|steps| - 1]);
    }
  }

  predicate Reviews(step: Step, kinds: set<ReviewKind>) {
    step.HandleReview? && step.request.kind in kinds
  }

  /** A rejected run stays exactly as it is until it is reopened or cancelled. */
  lemma RejectedUntilReopened(c: Case, steps: seq<Step>)
    requires c.analyzed && c.run.status == Rejected
    requires forall step <- steps :: !Reviews(step, {ReopenCase}) && !step.Cancel?
    ensures Run(c, steps) == c
  {
    RunWaits(c, steps);
  }

  /** A run with an open pull request stays exactly as it is until the approval is revoked or the case reopened; it
      cannot be cancelled. */
  lemma OpenPullRequestUntilRevoked(c: Case, steps: seq<Step>)
    requires c.analyzed && c.run.status == PrCreated
    requires forall step <- steps :: !Reviews(step, {RevokeApproval, ReopenCase})
    ensures Run(c, steps) == c
  {
    RunWaits(c, steps);
  }

  /** Reopening alone leads nowhere: a reopened run waits for a comment or its cancellation. */
  lemma ReopenedUntilCommented(c: Case, steps: seq<Step>)
    requires c.analyzed && c.run.status == Reopened
    requires forall step <- steps :: !Reviews(step, COMMENTS) && !step.Cancel?
    ensures Run(c, steps) == c
  {
    RunWaits(c, steps);
  }

  /** Cancelling is not final: a comment on a cancelled run that has a decision is applied, and nothing else is. */
  lemma CancelledUntilCommented(s: RunState, request: Request, world: World)
    requires s.status == Canceled
    ensures Act(s, request, world).Success? <==> request.kind in COMMENTS && s.decision.Some? && request.hasContext
    ensures Act(s, request, world).Success? ==> Act(s, request, world).value.status != Canceled
  {
    hide Act;
    ReviewAppliesIff(s, request, world);
    ReviewLeadsTo(s, request, world);
  }

  /** What the status of a run tells of its last review. */
  predicate TellsLastReview(s: RunState) {
    var last := if s.reviews == [] then None else Some(s.reviews[|s.reviews| - 1].kind);
    match s.status
    case Rejected => last == Some(Reject)
    case ApprovalRevoked => last == Some(RevokeApproval)
    case Reopened => last == Some(ReopenCase)
    case PrCreated => last == Some(Approve)
    case ProposalPrepared => last == Some(Approve)
    case PendingHumanReview => last == None || last.value in {AskEvidence, Modify} + COMMENTS
    case NeedsMoreEvidence => last == None || last.value in {AskEvidence} + COMMENTS
    case RunAbstained => last == None || last.value in {AskEvidence} + COMMENTS
    case RunKept => last == None || last.value in {AskEvidence} + COMMENTS
    case RunBlocked => last == None || last.value in {AskEvidence} + COMMENTS
    case Created => last == None
    case FailedSafely => last == None || last == Some(Approve)
    case Canceled => true
    case _ => false
  }

  lemma ActTells(s: RunState, request: Request, world: World)
    ensures var r := Act(s, request, world); r.Success? ==> TellsLastReview(r.value)
  {
    hide Act;
    ReviewLeadsTo(s, request, world);
  }

  lemma AnalysisTells(c: Case, step: Step)
    requires c.run.reviews == [] && (step.Analyze? || step.Skip?)
    ensures Attempt(c, step).Success? ==> TellsLastReview(Next(c, step).run)
  {
    hide AnalysisDecision, Repeat, ClosingKind;
  }

  lemma StepTells(c: Case, step: Step)
    requires Invariant(c) && TellsLastReview(c.run)
    ensures TellsLastReview(Next(c, step).run)
  {
    hide Act, AnalyzeRun, SkipRun, TellsLastReview, CancelRun;
    match step
    case HandleReview(_, request, world) =>
      ActTells(c.run, request, world);
      var r := Act(c.run, request, world);
      if r.Success? { TellsIgnoresVersion(r.value, c.run.version + 1); }
    case Cancel => CancelTells(c.run);
    case _ => if !c.analyzed { AnalysisTells(c, step); }
  }

  lemma TellsIgnoresVersion(s: RunState, version: nat)
    requires TellsLastReview(s)
    ensures TellsLastReview(s.(version := version))
  {
  }

  lemma CancelTells(s: RunState)
    ensures CancelRun(s).Success? ==> forall version :: TellsLastReview(CancelRun(s).value.(version := version))
  {
  }

  /** In every reachable run the status tells the last review: rejected, revoked, reopened and opened by exactly that
      action, open to review after the analysis, an evidence request, a comment or a modification. */
  lemma {:induction false} StatusTellsLastReview(c: Case, steps: seq<Step>)
    requires Starting(c)
    ensures TellsLastReview(Run(c, steps).run)
  {
    hide Next, TellsLastReview, Starting;
    if steps == [] {
      assert TellsLastReview(c.run) by { StartTells(c); }
    } else {
      StatusTellsLastReview(c, steps[..|steps| - 1]);
      ReachableInvariant(c, steps[..|steps| - 1]);
      StepTells(Run(c, steps[..|steps| - 1]), steps[|steps| - 1]);
    }
  }

  lemma StartTells(c: Case)
    requires Starting(c)
    ensures TellsLastReview(c.run)
  {
  }
}
