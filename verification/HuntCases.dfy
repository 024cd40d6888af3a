/** Which statuses of a review case admit which action and where an applied one leads (core/cloud_hunt_service.py,
    `act_on_case`). */
module HuntCases {
  import opened Wrappers
  import opened CloudHunt

  /** The actions a case in this status is open to. */
  predicate OpenTo(status: CaseStatus, action: Action) {
    match status
    case Waived => false
    case Rejected => action.ReopenCase?
    case PrCreated => action.ReopenCase?
    case RemediationPrCreated => action.ReopenCase?
    case ApprovalRevoked => !action.RevokeApproval?
    case ProposalPrepared => true
    case Approved => !action.ReopenCase?
    case _ => !action.RevokeApproval? && !action.ReopenCase?
  }

  /** What an action needs besides the status. */
  ghost predicate Supplied(c: Case, action: Action) {
    match action
    case Approve => c.candidate.None? || forall x <- c.candidate.value.assessment.signals :: x == OtherSignal
    case Waive(expiry) => expiry.Some?
    case Modify(named) => named
    case _ => true
  }

  function LeadsTo(c: Case, action: Action): CaseStatus {
    match action
    case Approve =>
      if c.terraformAddress.None? || c.terraformAddress.value == "" then ProposalPrepared else RemediationPrCreated
    case Reject => Rejected
    case Waive(_) => Waived
    case AskEvidence => NeedsMoreEvidence
    case AddContext => PendingHumanReview
    case AddFollowUpContext => PendingHumanReview
    case Modify(_) => PendingHumanReview
    case RevokeApproval => ApprovalRevoked
    case ReopenCase => Reopened
  }

  /** An action on a case is applied exactly if the version is current, the status is open to it, and it comes with what
      it needs; it then leads where it should, and only an approval adds a pull request, only a waiver an expiry. */
  lemma ActionAppliesIff(c: Case, action: Action, expected: Option<nat>)
    ensures var r := ActOn(c, action, expected);
            && (r.Success? <==>
                  (expected == None || expected == Some(c.version)) && OpenTo(c.status, action) && Supplied(c, action))
            && (r.Success? ==>
                  var after := r.value;
                  && after.status == LeadsTo(c, action) && after.version == c.version + 1
                  && after.audited == c.audited + (if action.Waive? then 2 else 1)
                  && after.simulatedPr == (c.simulatedPr || action.Approve?)
                  && after.waiverExpiry == (if action.Waive? then action.expiry else c.waiverExpiry)
                  && after == c.(status := after.status, version := after.version, audited := after.audited,
                                 simulatedPr := after.simulatedPr, waiverExpiry := after.waiverExpiry))
  {
    hide IsProtected;
    ProtectedIff(c.candidate);
  }

  /** Every signal that is not one of the others protects: a dependency, production, recent activity. */
  lemma ProtectedIff(candidate: Option<Candidate>)
    ensures IsProtected(candidate)
            <==> candidate.Some? && exists x <- candidate.value.assessment.signals :: x != OtherSignal
  {
  }

  /** Which refusal an action on a case meets. */
  lemma RefusalTells(c: Case, action: Action, expected: Option<nat>)
    requires ActOn(c, action, expected).Failure?
    ensures var refusal := ActOn(c, action, expected).error;
            var stale := expected.Some? && expected.value != c.version;
            var closed := c.status in {Rejected, Waived, PrCreated, RemediationPrCreated} && action != ReopenCase;
            && (refusal == StaleVersion <==> stale)
            && (refusal == AlreadyClosed <==> !stale && closed)
            && (refusal == ProtectedResource <==> !stale && !closed && action.Approve?)
            && (refusal == WaiverRequired <==> !stale && !closed && action.Waive?)
            && (refusal == ActionRequired <==> !stale && !closed && action.Modify?)
            && (refusal == NothingToRevoke <==> !stale && !closed && action.RevokeApproval?)
            && (refusal == NothingToReopen <==> !stale && action.ReopenCase?)
  {
    hide HasSignal;
  }

  /** A case waits for an action its status admits: whatever else is tried leaves it as it was. A rejected one, and one
      with a remediation pull request, waits to be reopened. */
  lemma {:induction false} CaseWaits(c: Case, attempts: seq<Attempt>)
    requires forall a <- attempts :: !OpenTo(c.status, a.action)
    ensures Run(c, attempts) == c
  {
    hide OpenTo, ActOn;
    if attempts != [] {
      var last := attempts[|attempts| - 1];
      assert last in attempts && forall a <- attempts[..|attempts| - 1] :: a in attempts;
      CaseWaits(c, attempts[..|attempts| - 1]);
      ActionAppliesIff(c, last.action, last.expected);
    }
  }

  lemma RejectedUntilReopened(c: Case, attempts: seq<Attempt>)
    requires c.status == Rejected || c.status == RemediationPrCreated || c.status == PrCreated
    requires forall a <- attempts :: !a.action.ReopenCase?
    ensures Run(c, attempts) == c
  {
    CaseWaits(c, attempts);
  }
}
