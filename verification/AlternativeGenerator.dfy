/** Remediation alternatives and their eligibility (core/alternative_generator.py). */
module AlternativeGenerator {
  import opened Wrappers
  import opened Evidence
  import opened ConflictDetector

  datatype Action = Keep | Blocked | Downsize | Schedule | RequestEvidence | Abstain

  datatype Rejection =
    | ProductionResource | DestructiveChange | DependencyActive | UtilizationMissing | AverageNotLow | PeakTooHigh
    | UtilizationNotFresh | PricingUnavailable | NoSavings | HighConflict | UnsupportiveContext | NothingToRequest
    | NothingToAbstainFrom

  datatype Alternative = Alternative(action: Action, rejections: seq<Rejection>, monthlySavings: real) {
    predicate Eligible() {
      rejections == []
    }
  }

  const LOW_AVERAGE := 30.0
  const SAFE_PEAK := 70.0

  predicate HardBlocked(resource: Resource) {
    resource.destructive || resource.production
  }

  function CpuRejections(average: Option<real>, peak: Option<real>): seq<Rejection> {
    if average.None? || peak.None? then [UtilizationMissing]
    else When(average.value > LOW_AVERAGE, AverageNotLow) + When(peak.value >= SAFE_PEAK, PeakTooHigh)
  }

  predicate FreshUtilization(evidence: seq<Item>) {
    var item := ItemBySource(evidence, Utilization);
    item.Some? && item.value.freshness == Fresh
  }

  function DownsizeRejections(resource: Resource, evidence: seq<Item>, conflicts: seq<Conflict>): seq<Rejection> {
    When(resource.production, ProductionResource)
    + When(resource.destructive, DestructiveChange)
    + When(ActiveDependencies(evidence), DependencyActive)
    + CpuRejections(AverageCpu(evidence), PeakCpu(evidence))
    + When(!FreshUtilization(evidence), UtilizationNotFresh)
    + When(SourceUnavailable(evidence, Pricing), PricingUnavailable)
    + When(MonthlySavings(evidence) <= 0.0, NoSavings)
    + When(HasHigh(conflicts), HighConflict)
  }

  predicate SupportsIntermittentUse(evidence: seq<Item>) {
    && (StatusOfJira(evidence) == Some(Completed) || StatusOfJira(evidence) == Some(Inactive))
    && !RecentGitActivity(evidence)
  }

  /** Unlike the downsizing list, this one never looks at `resource.destructive`. */
  function ScheduleRejections(resource: Resource, evidence: seq<Item>): seq<Rejection> {
    When(resource.production, ProductionResource)
    + When(ActiveDependencies(evidence), DependencyActive)
    + When(!SupportsIntermittentUse(evidence), UnsupportiveContext)
  }

  /** A high conflict other than the dependency one, which more evidence could settle. */
  predicate UnresolvedContextConflict(conflicts: seq<Conflict>) {
    exists c <- conflicts :: c.severity == High && c.claim != ActiveDependencyRisk
  }

  predicate MustRequest(missing: seq<Missing>, conflicts: seq<Conflict>) {
    CriticalMissing(missing) || UnresolvedContextConflict(conflicts)
  }

  predicate MayAbstain(evidence: seq<Item>, missing: seq<Missing>, conflicts: seq<Conflict>) {
    ActiveDependencies(evidence) || CriticalMissing(missing) || HasHigh(conflicts)
  }

  function Positive(amount: real): real {
    if amount < 0.0 then 0.0 else amount
  }

  function Rejections(action: Action, resource: Resource, evidence: seq<Item>, missing: seq<Missing>,
                      conflicts: seq<Conflict>): seq<Rejection> {
    match action
    case Keep => []
    case Blocked => []
    case Downsize => DownsizeRejections(resource, evidence, conflicts)
    case Schedule => ScheduleRejections(resource, evidence)
    case RequestEvidence => When(!MustRequest(missing, conflicts), NothingToRequest)
    case Abstain => When(!MayAbstain(evidence, missing, conflicts), NothingToAbstainFrom)
  }

  function Savings(action: Action, evidence: seq<Item>): real {
    match action
    case Downsize => Positive(MonthlySavings(evidence))
    case Schedule => Positive(MonthlySavings(evidence) * 0.5)
    case _ => 0.0
  }

  function Proposal(action: Action, resource: Resource, evidence: seq<Item>, missing: seq<Missing>,
                    conflicts: seq<Conflict>): Alternative {
    Alternative(action, Rejections(action, resource, evidence, missing, conflicts), Savings(action, evidence))
  }

  function GeneratedActions(resource: Resource): seq<Action> {
    [Keep] + When(HardBlocked(resource), Blocked) + [Downsize, Schedule, RequestEvidence, Abstain]
  }

  function GenerateAlternatives(resource: Resource, evidence: seq<Item>, missing: seq<Missing>,
                                conflicts: seq<Conflict>): (r: seq<Alternative>)
    ensures |r| == |GeneratedActions(resource)|
    ensures forall k | 0 <= k < |r| ::
              r[k] == Proposal(GeneratedActions(resource)[k], resource, evidence, missing, conflicts)
  {
    Proposals(GeneratedActions(resource), resource, evidence, missing, conflicts)
  }

  function Proposals(actions: seq<Action>, resource: Resource, evidence: seq<Item>, missing: seq<Missing>,
                     conflicts: seq<Conflict>): (r: seq<Alternative>)
    ensures |r| == |actions|
    ensures forall k | 0 <= k < |r| :: r[k] == Proposal(actions[k], resource, evidence, missing, conflicts)
  {
    if actions == [] then []
    else
      [Proposal(actions[0], resource, evidence, missing, conflicts)]
      + Proposals(actions[1..], resource, evidence, missing, conflicts)
  }

  /** `next(item for item in alternatives if item.action == action [and item.eligible])`. */
  function FirstWith(alternatives: seq<Alternative>, action: Action, eligibleOnly: bool): (r: Option<Alternative>)
    ensures r.Some? ==> r.value in alternatives && r.value.action == action && (eligibleOnly ==> r.value.Eligible())
    ensures r.None? <==> forall a <- alternatives :: a.action == action ==> eligibleOnly && !a.Eligible()
  {
    if alternatives == [] then None
    else if alternatives[0].action == action && (eligibleOnly ==> alternatives[0].Eligible()) then Some(alternatives[0])
    else FirstWith(alternatives[1..], action, eligibleOnly)
  }

  /** The match returned is the earliest one. */
  lemma {:induction false} FirstWithIsFirst(alternatives: seq<Alternative>, action: Action, eligibleOnly: bool)
    returns (k: nat)
    requires FirstWith(alternatives, action, eligibleOnly).Some?
    ensures k < |alternatives| && alternatives[k] == FirstWith(alternatives, action, eligibleOnly).value
    ensures forall j | 0 <= j < k :: alternatives[j].action == action ==> eligibleOnly && !alternatives[j].Eligible()
  {
    if alternatives[0].action == action && (eligibleOnly ==> alternatives[0].Eligible()) {
      k := 0;
    } else {
      k := FirstWithIsFirst(alternatives[1..], action, eligibleOnly);
      k := k + 1;
    }
  }

  /** The facts under which downsizing is safe and worthwhile. */
  predicate DownsizeFacts(resource: Resource, evidence: seq<Item>, conflicts: seq<Conflict>) {
    && !HardBlocked(resource) && !ActiveDependencies(evidence) && FreshUtilization(evidence)
    && AverageCpu(evidence).Some? && AverageCpu(evidence).value <= LOW_AVERAGE
    && PeakCpu(evidence).Some? && PeakCpu(evidence).value < SAFE_PEAK
    && !SourceUnavailable(evidence, Pricing) && MonthlySavings(evidence) > 0.0 && !HasHigh(conflicts)
  }

  predicate ScheduleFacts(resource: Resource, evidence: seq<Item>) {
    !resource.production && !ActiveDependencies(evidence) && SupportsIntermittentUse(evidence)
  }

  lemma DownsizeEligibleIff(resource: Resource, evidence: seq<Item>, conflicts: seq<Conflict>)
    ensures DownsizeRejections(resource, evidence, conflicts) == [] <==> DownsizeFacts(resource, evidence, conflicts)
  {
  }

  /** The generated list holds the proposal for every action, a block only under a hard block. */
  lemma GeneratedIff(resource: Resource, evidence: seq<Item>, missing: seq<Missing>, conflicts: seq<Conflict>,
                     a: Alternative)
    ensures a in GenerateAlternatives(resource, evidence, missing, conflicts) <==>
      a == Proposal(a.action, resource, evidence, missing, conflicts) && (a.action == Blocked ==> HardBlocked(resource))
  {
    var actions := GeneratedActions(resource);
    assert a.action in actions <==> (a.action == Blocked ==> HardBlocked(resource));
    var r := GenerateAlternatives(resource, evidence, missing, conflicts);
    if a == Proposal(a.action, resource, evidence, missing, conflicts) && a.action in actions {
      var k :| 0 <= k < |actions| && actions[k] == a.action;
      assert r[k] == a;
    }
  }

  /** An alternative is eligible exactly under the facts for its action. */
  predicate FactsFor(action: Action, resource: Resource, evidence: seq<Item>, missing: seq<Missing>,
                     conflicts: seq<Conflict>) {
    match action
    case RequestEvidence => MustRequest(missing, conflicts)
    case Abstain => MayAbstain(evidence, missing, conflicts)
    case Downsize => DownsizeFacts(resource, evidence, conflicts)
    case Schedule => ScheduleFacts(resource, evidence)
    case _ => true
  }

  lemma EligibleIff(action: Action, resource: Resource, evidence: seq<Item>, missing: seq<Missing>,
                    conflicts: seq<Conflict>)
    ensures Proposal(action, resource, evidence, missing, conflicts).Eligible()
            <==> FactsFor(action, resource, evidence, missing, conflicts)
  {
  }
}
