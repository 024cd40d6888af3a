/** The mutable run object the store's updaters work on (core/workflow_service.py). Every method changes the copy in
    place, is proved against the value-level action of the same step and keeps the safety invariant; when one raises
    half way, the copy is dropped. */
module WorkflowRuns {
  import opened Wrappers
  import opened Evidence
  import opened AlternativeGenerator
  import opened Verifier
  import opened ReasoningEngine
  import opened HumanContext
  import opened ReviewWorkflow
  import opened ReviewSafety

  lemma ApprovableIsDecided(s: RunState)
    ensures CanApprove(s).None? ==> s.decision.Some?
  {
  }

  class WorkflowRun {
    const organization: nat
    const key: Option<string>
    const resource: Resource
    const conflicting: bool
    const github: bool
    const readOnly: bool
    var status: RunStatus
    var decision: Option<Decision>
    var reviews: seq<Review>
    var audit: seq<AuditEvent>
    var mockPr: Option<MockPr>
    var realPr: Option<nat>
    var version: nat
    /** Whether the one analysis update of this run has been applied. */
    ghost var analyzed: bool

    function Snapshot(): RunState
      reads this
    {
      RunState(organization, key, resource, conflicting, github, readOnly, status, decision, reviews, audit, mockPr,
               realPr, version)
    }

    ghost predicate Valid()
      reads this
    {
      Invariant(Case(Snapshot(), analyzed))
    }

    /** `model_copy(deep=True)`. */
    constructor Copy(s: RunState, ghost analyzed: bool)
      requires Invariant(Case(s, analyzed))
      ensures Snapshot() == s && this.analyzed == analyzed && Valid()
    {
      organization, key, resource, conflicting, github, readOnly :=
        s.organization, s.key, s.resource, s.conflicting, s.github, s.readOnly;
      status, decision, reviews, audit := s.status, s.decision, s.reviews, s.audit;
      mockPr, realPr, version := s.mockPr, s.realPr, s.version;
      this.analyzed := analyzed;
    }

    /** Whether the object now is what the specified action promises, or the action was refused as specified. */
    predicate Did(spec: Result<RunState, Refusal>, refusal: Option<Refusal>)
      reads this
    {
      if spec.Success? then refusal.None? && Snapshot() == spec.value else refusal == Some(spec.error)
    }

    method AppendAuditEvent(kind: EventKind)
      modifies this`audit
      ensures Snapshot() == Log(old(Snapshot()), [kind])
    {
      audit := audit + [AuditEvent(|audit| + 1, kind)];
      assert Numbered(|old(audit)|, [kind]) == [AuditEvent(|old(audit)| + 1, kind)];
    }

    method AppendAuditEvents(kinds: seq<EventKind>)
      modifies this`audit
      ensures Snapshot() == Log(old(Snapshot()), kinds)
    {
      for i := 0 to |kinds|
        invariant audit == old(audit) + Numbered(|old(audit)|, kinds[..i])
      {
        AppendAuditEvent(kinds[i]);
        assert Numbered(|old(audit)|, kinds[..i + 1])
               == Numbered(|old(audit)|, kinds[..i]) + [AuditEvent(|old(audit)| + i + 1, kinds[i])];
      }
      assert kinds[..|kinds|] == kinds;
    }

    method RecordReview(request: Request)
      modifies this`reviews
      ensures Snapshot() == Reviewed(old(Snapshot()), request)
    {
      reviews := reviews + [Review(request.kind, request.reviewer)];
    }

    /** What GitHub's answer leaves on the run. */
    method RecordRemote(remote: Remote) returns (refusal: Option<Refusal>)
      requires !remote.RemoteOff?
      modifies this
      ensures analyzed == old(analyzed)
      ensures refusal == if remote.RemoteRaises? then Some(RemoteCrashed) else None
      ensures var s := old(Snapshot());
              match remote
              case RemoteCreated(pr, reused) =>
                Snapshot() == Log(s.(realPr := Some(pr), status := PrCreated),
                                  Repeat(RemotePrRecorded, if reused then 1 else 3))
              case RemoteInvalid => Snapshot() == Log(s.(status := FailedSafely), [RemoteValidationFailed])
              case _ => Snapshot() == s
    {
      hide Repeat, Numbered;
      refusal := None;
      match remote {
        case RemoteCreated(pr, reused) =>
          realPr := Some(pr);
          status := PrCreated;
          AppendAuditEvents(Repeat(RemotePrRecorded, if reused then 1 else 3));
        case RemoteInvalid =>
          status := FailedSafely;
          AppendAuditEvent(RemoteValidationFailed);
        case _ =>
          refusal := Some(RemoteCrashed);
      }
    }

    method Approve(request: Request, world: World) returns (refusal: Option<Refusal>)
      modifies this
      ensures Did(ApproveRun(old(Snapshot()), request, world), refusal)
      ensures analyzed == old(analyzed)
    {
      hide Repeat, Numbered, MockPrFor, CanApprove;
      ApprovableIsDecided(Snapshot());
      refusal := CanApprove(Snapshot());
      if refusal.Some? { return; }
      RecordReview(request);
      AppendAuditEvent(HumanReviewReceived);
      status := Approved;
      if readOnly && !github {
        status := ProposalPrepared;
        AppendAuditEvent(ProposalEvent);
        return;
      }
      if github && !world.remote.RemoteOff? {
        AppendAuditEvent(RemoteValidationStarted);
        refusal := RecordRemote(world.remote);
        return;
      }
      mockPr := MockPrFor(decision.value, world.prNumber);
      if mockPr.None? { return Some(NotGenerated); }
      status := PrCreated;
      AppendAuditEvent(MockPrRecorded);
    }

    method RejectReview(request: Request) returns (refusal: Option<Refusal>)
      modifies this
      ensures Did(RejectRun(old(Snapshot()), request), refusal)
      ensures refusal.None? <==> old(status) == PendingHumanReview || old(status) == NeedsMoreEvidence
      ensures refusal.None? ==> status == Rejected && decision == old(decision)
      ensures analyzed == old(analyzed)
    {
      refusal := CanReject(Snapshot());
      if refusal.Some? { return; }
      RecordReview(request);
      AppendAuditEvent(HumanReviewReceived);
      status := Rejected;
    }

    method RequestMoreEvidence(request: Request, world: World) returns (refusal: Option<Refusal>)
      modifies this
      ensures Did(AskEvidenceRun(old(Snapshot()), request, world), refusal)
      ensures analyzed == old(analyzed)
    {
      hide Recalculate, Repeat, PolicyKinds, Without, Log;
      refusal := CanAskEvidence(Snapshot());
      if refusal.Some? { return; }
      if request.sources == [] { return Some(SourcesRequired); }
      if exists x <- request.sources :: x !in world.registered { return Some(UnknownSource); }
      RecordReview(request);
      var d := decision.value;
      var revised := Recalculate(d, resource, Without(d.evidence, request.sources) + world.gathered,
                                 d.executions + world.records, world.evaluate);
      decision := Some(revised);
      status := MapFinalStatus(revised.finalStatus);
      AppendAuditEvents([EvidenceRequested, PlanRevised] + Repeat(ToolEvent, world.toolEvents) + PolicyKinds(world)
                        + [WorkflowResumed]);
    }

    method AddHumanContext(request: Request, world: World) returns (refusal: Option<Refusal>)
      modifies this
      ensures Did(AddContextRun(old(Snapshot()), request, world), refusal)
      ensures analyzed == old(analyzed)
    {
      hide Recalculate, Repeat, PolicyKinds, Log;
      refusal := CanAddContext(Snapshot(), request);
      if refusal.Some? { return; }
      RecordReview(request);
      var d := decision.value;
      var revised := Recalculate(d, resource, d.evidence + [CONTEXT], d.executions, world.evaluate);
      decision := Some(revised);
      status := MapFinalStatus(revised.finalStatus);
      AppendAuditEvents(PolicyKinds(world) + [HumanContextAdded, PlanRevised, WorkflowResumed]);
    }

    method ModifyAction(request: Request, world: World) returns (refusal: Option<Refusal>)
      modifies this
      ensures Did(ModifyRun(old(Snapshot()), request, world), refusal)
      ensures refusal.None? ==> status == PendingHumanReview
      ensures analyzed == old(analyzed)
    {
      hide Modified, Repeat, PolicyKinds, FirstWith, Log;
      refusal := CanModify(Snapshot(), request);
      if refusal.Some? { return; }
      var d := decision.value;
      var alternative := FirstWith(d.alternatives, request.modified.value, false);
      if alternative.None? { return Some(NotGenerated); }
      if !alternative.value.Eligible() { return Some(NotEligible); }
      if !IsRemediation(request.modified.value) { return Some(OnlyRemediations); }
      var revised := Modified(d, resource, alternative.value, world.evaluate);
      if !revised.policy.allowed { return Some(ModificationDenied); }
      decision := Some(revised);
      RecordReview(request);
      status := PendingHumanReview;
      AppendAuditEvents(PolicyKinds(world) + [ActionModified]);
    }

    method Revoke(request: Request) returns (refusal: Option<Refusal>)
      modifies this
      ensures Did(RevokeRun(old(Snapshot()), request), refusal)
      ensures refusal.None? ==> status == ApprovalRevoked && decision == old(decision) && mockPr == old(mockPr)
      ensures analyzed == old(analyzed)
    {
      if status != Approved && status != PrCreated { return Some(WrongState); }
      RecordReview(request);
      status := ApprovalRevoked;
      AppendAuditEvent(ApprovalRevokedEvent);
      refusal := None;
    }

    method Reopen(request: Request) returns (refusal: Option<Refusal>)
      modifies this
      ensures Did(ReopenRun(old(Snapshot()), request), refusal)
      ensures refusal.None? ==> status == Reopened && decision == old(decision) && mockPr == old(mockPr)
      ensures analyzed == old(analyzed)
    {
      if status != Rejected && status != ApprovalRevoked && status != PrCreated && status != Approved {
        return Some(WrongState);
      }
      RecordReview(request);
      status := Reopened;
      AppendAuditEvent(CaseReopened);
      refusal := None;
    }

    method HandleReviewRequest(expected: Option<nat>, request: Request, world: World) returns (refusal: Option<Refusal>)
      requires Valid()
      modifies this
      ensures Did(ReviewRun(old(Snapshot()), expected, request, world), refusal)
      ensures analyzed == old(analyzed) && (refusal.None? ==> Valid())
    {
      hide Invariant, ApproveRun, AskEvidenceRun, AddContextRun, ModifyRun, RejectRun, RevokeRun, ReopenRun;
      ActionKeepsInvariant(Case(Snapshot(), analyzed), request, world);
      if expected.Some? && expected.value != version { return Some(StaleVersion); }
      match request.kind {
        case Approve => refusal := Approve(request, world);
        case Reject => refusal := RejectReview(request);
        case AskEvidence => refusal := RequestMoreEvidence(request, world);
        case AddContext => refusal := AddHumanContext(request, world);
        case Modify => refusal := ModifyAction(request, world);
        case RevokeApproval => refusal := Revoke(request);
        case ReopenCase => refusal := Reopen(request);
        case AddFollowUpContext => refusal := AddHumanContext(request, world);
      }
    }

    method CancelGoal() returns (refusal: Option<Refusal>)
      requires Valid()
      modifies this
      ensures Did(CancelRun(old(Snapshot())), refusal)
      ensures refusal.None? ==> status == Canceled && decision == old(decision) && reviews == old(reviews)
      ensures analyzed == old(analyzed) && (refusal.None? ==> Valid())
    {
      hide Invariant;
      CancelKeepsInvariant(Case(Snapshot(), analyzed));
      if status == Approved || status == PrCreated || status == RemediationPrCreated { return Some(WrongState); }
      status := Canceled;
      AppendAuditEvent(GoalCanceled);
      refusal := None;
    }

    method ExecuteAnalysis(a: Analysis)
      requires Valid() && !analyzed
      modifies this
      ensures Snapshot() == AnalyzeRun(old(Snapshot()), a)
      ensures analyzed && Valid()
    {
      hide Invariant, AnalyzeRun;
      AnalysisKeepsInvariant(Case(Snapshot(), analyzed), a);
      RecordAnalysis(a);
      analyzed := true;
    }

    method RecordAnalysis(a: Analysis)
      modifies this
      ensures Snapshot() == AnalyzeRun(old(Snapshot()), a) && analyzed == old(analyzed)
    {
      hide Recalculate, BuildDecision, Repeat, Numbered;
      status := Planning;
      status := Investigating;
      if a.raised == BeforeDecision {
        status := FailedSafely;
        AppendAuditEvents(Repeat(AnalysisEvent, a.auditEvents) + [FailureHandled]);
        return;
      }
      var d := AnalysisDecision(Snapshot(), a);
      decision := Some(d);
      if a.raised == AfterDecision {
        status := FailedSafely;
        AppendAuditEvents(Repeat(AnalysisEvent, a.auditEvents) + [FailureHandled]);
        return;
      }
      status := MapFinalStatus(d.finalStatus);
      AppendAuditEvents(Repeat(AnalysisEvent, a.auditEvents) + [ClosingKind(Snapshot(), status)]);
    }

    method SkipAnalysis()
      requires Valid() && !analyzed
      modifies this
      ensures Snapshot() == SkipRun(old(Snapshot()))
      ensures analyzed && Valid()
    {
      hide Invariant;
      SkipKeepsInvariant(Case(Snapshot(), analyzed));
      analyzed := true;
      status := RunKept;
      AppendAuditEvent(AnalysisSkipped);
    }
  }
}
