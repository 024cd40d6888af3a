/** One workflow run as a value, and each service action as a guarded step
    (core/workflow_service.py, core/human_review.py, core/audit.py, core/mock_pr.py). */
module ReviewWorkflow {
  import opened Wrappers
  import opened Evidence
  import opened AlternativeGenerator
  import opened Verifier
  import opened ReasoningEngine
  import opened HumanContext

  datatype RunStatus =
    | Created | Planning | Investigating | Verifying | RunBlocked | RunAbstained | RunKept
    | PendingHumanReview | NeedsMoreEvidence | Approved | Rejected | ApprovalRevoked | Reopened
    | ProposalPrepared | RemediationPrCreated | PrCreated | FailedSafely | Canceled

  datatype ReviewKind = Approve | Reject | AskEvidence | Modify | AddContext | RevokeApproval | ReopenCase
      | AddFollowUpContext

  datatype Request = Request(kind: ReviewKind, reviewer: string, sources: seq<Source>, modified: Option<Action>,
                             hasContext: bool)

  datatype Review = Review(kind: ReviewKind, reviewer: string)

  datatype EventKind =
    | RunCreated | GoalReceived | AnalysisEvent | HumanReviewRequired | GoalCompleted | FailureHandled | AnalysisSkipped
    | HumanReviewReceived | EvidenceRequested | PlanRevised | ToolEvent | PolicyEvent | WorkflowResumed
    | HumanContextAdded | ActionModified | ApprovalRevokedEvent | CaseReopened | ProposalEvent
    | RemoteValidationStarted | RemoteValidationFailed | RemotePrRecorded | MockPrRecorded | GoalCanceled

  datatype AuditEvent = AuditEvent(number: nat, kind: EventKind)

  datatype MockPr = MockPr(number: nat, action: Action, monthlySavings: real)

  datatype RunState = RunState(
    organization: nat,
    key: Option<string>,
    resource: Resource,
    conflicting: bool,
    github: bool,
    readOnly: bool,
    status: RunStatus,
    decision: Option<Decision>,
    reviews: seq<Review>,
    audit: seq<AuditEvent>,
    mockPr: Option<MockPr>,
    realPr: Option<nat>,
    version: nat)

  datatype Refusal =
    | StaleVersion | NotPending | AlreadyHasPr | PolicyDenies | ApprovalNotRequired | NotRemediation
    | CriticalCheckFails
    | WrongState | ContextRequired | NoDecision | SourcesRequired | UnknownSource | ActionRequired
    | CannotModifyToBlocked
    | NotGenerated | NotEligible | OnlyRemediations | ModificationDenied | RemoteCrashed | UnknownRun | DuplicateKey

  /** How GitHub answers when real pull requests are switched on. */
  datatype Remote = RemoteOff | RemoteCreated(pr: nat, reused: bool) | RemoteInvalid | RemoteRaises

  /** Everything one service call learns from outside the run. */
  datatype World = World(
    evaluate: Evaluator,
    policyFellBack: bool,
    registered: set<Source>,
    gathered: seq<Item>,
    records: seq<Execution>,
    toolEvents: nat,
    prNumber: nat,
    remote: Remote)

  function Numbered(start: nat, kinds: seq<EventKind>): seq<AuditEvent> {
    seq(|kinds|, i requires 0 <= i < |kinds| => AuditEvent(start + i + 1, kinds[i]))
  }

  function Repeat(kind: EventKind, count: nat): seq<EventKind> {
    seq(count, _ => kind)
  }

  /** Audit numbers are exactly 1, 2, 3, ... */
  predicate Consecutive(audit: seq<AuditEvent>) {
    forall i | 0 <= i < |audit| :: audit[i].number == i + 1
  }

  /** Appending audit events touches nothing else, keeps the numbering and only extends the log. */
  function Log(s: RunState, kinds: seq<EventKind>): (r: RunState)
    ensures r == s.(audit := r.audit)
    ensures s.audit <= r.audit && |r.audit| == |s.audit| + |kinds|
    ensures Consecutive(s.audit) ==> Consecutive(r.audit)
  {
    s.(audit := s.audit + Numbered(|s.audit|, kinds))
  }

  function PolicyKinds(world: World): seq<EventKind> {
    Repeat(PolicyEvent, if world.policyFellBack then 5 else 4)
  }

  function MapFinalStatus(status: FinalStatus): RunStatus {
    match status
    case RecommendationReady => PendingHumanReview
    case DecisionBlocked => RunBlocked
    case Abstained => RunAbstained
    case KeepAsIs => RunKept
    case NeedsHumanContext => NeedsMoreEvidence
  }

  // ----- guards (core/human_review.py) -----

  function CanApprove(s: RunState): Option<Refusal> {
    if s.status != PendingHumanReview || s.decision.None? then Some(NotPending)
    else if s.mockPr.Some? then Some(AlreadyHasPr)
    else
      var d := s.decision.value;
      if !d.policy.allowed then Some(PolicyDenies)
      else if !d.policy.requiresApproval then Some(ApprovalNotRequired)
      else if !IsRemediation(d.preferred) then Some(NotRemediation)
      else if CriticalFailure(d.findings) then Some(CriticalCheckFails)
      else None
  }

  function CanReject(s: RunState): Option<Refusal> {
    if s.status == PendingHumanReview || s.status == NeedsMoreEvidence then None else Some(WrongState)
  }

  function CanAskEvidence(s: RunState): Option<Refusal> {
    if s.status != PendingHumanReview && s.status != NeedsMoreEvidence && s.status != RunAbstained then Some(WrongState)
    else if s.decision.None? then Some(NoDecision)
    else None
  }

  function CanAddContext(s: RunState, request: Request): Option<Refusal> {
    if !request.hasContext then Some(ContextRequired)
    else if s.status == PrCreated || s.status == Rejected then Some(WrongState)
    else if s.decision.None? then Some(NoDecision)
    else None
  }

  function CanModify(s: RunState, request: Request): Option<Refusal> {
    if s.status != PendingHumanReview && s.status != NeedsMoreEvidence then Some(WrongState)
    else if request.modified.None? then Some(ActionRequired)
    else if request.modified.value == Blocked then Some(CannotModifyToBlocked)
    else if s.decision.None? then Some(NoDecision)
    else None
  }

  // ----- actions (core/workflow_service.py) -----

  function Reviewed(s: RunState, request: Request): RunState {
    s.(reviews := s.reviews + [Review(request.kind, request.reviewer)])
  }

  function MockPrFor(d: Decision, number: nat): Option<MockPr> {
    var alternative := FirstWith(d.alternatives, d.preferred, false);
    if alternative.None? then None
    else Some(MockPr(number, d.preferred,
                     if alternative.value.monthlySavings != 0.0 then alternative.value.monthlySavings
                     else MonthlySavings(d.evidence)))
  }

  function ApproveRun(s: RunState, request: Request, world: World): Result<RunState, Refusal> {
    var refusal := CanApprove(s);
    if refusal.Some? then Failure(refusal.value)
    else
      var r := Log(Reviewed(s, request), [HumanReviewReceived]);
      if r.readOnly && !r.github then Success(Log(r.(status := ProposalPrepared), [ProposalEvent]))
      else if r.github && !world.remote.RemoteOff? then
        var started := Log(r, [RemoteValidationStarted]);
        match world.remote
        case RemoteCreated(pr, reused) =>
          Success(Log(started.(realPr := Some(pr), status := PrCreated),
                      Repeat(RemotePrRecorded, if reused then 1 else 3)))
        case RemoteInvalid => Success(Log(started.(status := FailedSafely), [RemoteValidationFailed]))
        case _ => Failure(RemoteCrashed)
      else
        var pr := MockPrFor(r.decision.value, world.prNumber);
        if pr.None? then Failure(NotGenerated)
        else Success(Log(r.(mockPr := pr, status := PrCreated), [MockPrRecorded]))
  }

  function RejectRun(s: RunState, request: Request): Result<RunState, Refusal> {
    var refusal := CanReject(s);
    if refusal.Some? then Failure(refusal.value)
    else Success(Log(Reviewed(s, request), [HumanReviewReceived]).(status := Rejected))
  }

  function Without(evidence: seq<Item>, sources: seq<Source>): seq<Item> {
    if evidence == [] then []
    else if evidence[0].source in sources then Without(evidence[1..], sources)
    else [evidence[0]] + Without(evidence[1..], sources)
  }

  function AskEvidenceRun(s: RunState, request: Request, world: World): Result<RunState, Refusal> {
    var refusal := CanAskEvidence(s);
    if refusal.Some? then Failure(refusal.value)
    else if request.sources == [] then Failure(SourcesRequired)
    else if exists x <- request.sources :: x !in world.registered then Failure(UnknownSource)
    else
      var d := s.decision.value;
      var revised := Recalculate(d, s.resource, Without(d.evidence, request.sources) + world.gathered,
                                 d.executions + world.records, world.evaluate);
      Success(Log(Reviewed(s, request).(decision := Some(revised), status := MapFinalStatus(revised.finalStatus)),
                  [EvidenceRequested, PlanRevised] + Repeat(ToolEvent, world.toolEvents) + PolicyKinds(world)
                  + [WorkflowResumed]))
  }

  function AddContextRun(s: RunState, request: Request, world: World): Result<RunState, Refusal> {
    var refusal := CanAddContext(s, request);
    if refusal.Some? then Failure(refusal.value)
    else
      var d := s.decision.value;
      var revised := Recalculate(d, s.resource, d.evidence + [CONTEXT], d.executions, world.evaluate);
      Success(Log(Reviewed(s, request).(decision := Some(revised), status := MapFinalStatus(revised.finalStatus)),
                  PolicyKinds(world) + [HumanContextAdded, PlanRevised, WorkflowResumed]))
  }

  function ModifyRun(s: RunState, request: Request, world: World): Result<RunState, Refusal> {
    var refusal := CanModify(s, request);
    if refusal.Some? then Failure(refusal.value)
    else
      var d := s.decision.value;
      var alternative := FirstWith(d.alternatives, request.modified.value, false);
      if alternative.None? then Failure(NotGenerated)
      else if !alternative.value.Eligible() then Failure(NotEligible)
      else if !IsRemediation(request.modified.value) then Failure(OnlyRemediations)
      else
        var revised := Modified(d, s.resource, alternative.value, world.evaluate);
        if !revised.policy.allowed then Failure(ModificationDenied)
        else Success(Log(Reviewed(s, request).(decision := Some(revised), status := PendingHumanReview),
                         PolicyKinds(world) + [ActionModified]))
  }

  function RevokeRun(s: RunState, request: Request): Result<RunState, Refusal> {
    if s.status != Approved && s.status != PrCreated then Failure(WrongState)
    else Success(Log(Reviewed(s, request).(status := ApprovalRevoked), [ApprovalRevokedEvent]))
  }

  function ReopenRun(s: RunState, request: Request): Result<RunState, Refusal> {
    if s.status != Rejected && s.status != ApprovalRevoked && s.status != PrCreated && s.status != Approved then
      Failure(WrongState)
    else Success(Log(Reviewed(s, request).(status := Reopened), [CaseReopened]))
  }

  function Act(s: RunState, request: Request, world: World): Result<RunState, Refusal> {
    match request.kind
    case Approve => ApproveRun(s, request, world)
    case Reject => RejectRun(s, request)
    case AskEvidence => AskEvidenceRun(s, request, world)
    case AddContext => AddContextRun(s, request, world)
    case Modify => ModifyRun(s, request, world)
    case RevokeApproval => RevokeRun(s, request)
    case ReopenCase => ReopenRun(s, request)
    case AddFollowUpContext => AddContextRun(s, request, world)
  }

  /** The updater `review_run` hands to the store, without the store's own version bump. */
  function ReviewRun(s: RunState, expected: Option<nat>, request: Request, world: World): Result<RunState, Refusal> {
    if expected.Some? && expected.value != s.version then Failure(StaleVersion) else Act(s, request, world)
  }

  function CancelRun(s: RunState): Result<RunState, Refusal> {
    if s.status == Approved || s.status == PrCreated || s.status == RemediationPrCreated then Failure(WrongState)
    else Success(Log(s.(status := Canceled), [GoalCanceled]))
  }

  /** What the analysis started by `start_run` or `start_github_run` produced. `raised` says where, if anywhere, it
      raised: before the decision was stored or while its audit trail was copied. */
  datatype Raised = NotRaised | BeforeDecision | AfterDecision

  datatype Analysis = Analysis(
    selectedTools: seq<Source>,
    executions: seq<Execution>,
    evidence: seq<Item>,
    missing: seq<Missing>,
    evaluate: Evaluator,
    hasContext: bool,
    raised: Raised,
    auditEvents: nat)

  function AnalysisDecision(s: RunState, a: Analysis): Decision {
    var d := BuildDecision(s.resource, s.conflicting, a.selectedTools, a.executions, a.evidence, a.missing, a.evaluate);
    if a.hasContext then Recalculate(d, s.resource, d.evidence + [CONTEXT], d.executions, a.evaluate) else d
  }

  function AnalyzeRun(s: RunState, a: Analysis): RunState {
    match a.raised
    case BeforeDecision => Log(s.(status := FailedSafely), Repeat(AnalysisEvent, a.auditEvents) + [FailureHandled])
    case AfterDecision =>
      Log(s.(decision := Some(AnalysisDecision(s, a)), status := FailedSafely),
          Repeat(AnalysisEvent, a.auditEvents) + [FailureHandled])
    case NotRaised =>
      var d := AnalysisDecision(s, a);
      var status := MapFinalStatus(d.finalStatus);
      Log(s.(decision := Some(d), status := status),
          Repeat(AnalysisEvent, a.auditEvents) + [ClosingKind(s, status)])
  }

  function ClosingKind(s: RunState, status: RunStatus): EventKind {
    if s.github then AnalysisEvent
    else if status == PendingHumanReview then HumanReviewRequired
    else GoalCompleted
  }

  /** A pull request without resource changes is kept without any analysis. */
  function SkipRun(s: RunState): RunState {
    Log(s.(status := RunKept), [AnalysisSkipped])
  }
}
