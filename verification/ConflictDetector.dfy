/** Deterministic conflict rules (core/conflict_detector.py). */
module ConflictDetector {
  import opened Wrappers
  import opened Evidence

  datatype Claim = JiraGitConflict | JiraIdleHighLoad | LowAverageHighPeak | ActiveDependencyRisk | StaleUtilization

  datatype Severity = Info | Low | Medium | High | Critical

  datatype Conflict = Conflict(claim: Claim, severity: Severity)

  function When<T>(condition: bool, entry: T): seq<T> {
    if condition then [entry] else []
  }

  predicate StaleItem(item: Option<Item>) {
    item.Some? && item.value.freshness == Stale
  }

  function DetectConflicts(evidence: seq<Item>): (r: seq<Conflict>)
    ensures forall c <- r ::
              c.severity == High
              <==> (c.claim.JiraGitConflict? || c.claim.JiraIdleHighLoad? || c.claim.ActiveDependencyRisk?)
    ensures forall c <- r :: c.severity == High || c.severity == Medium
  {
    var status := StatusOfJira(evidence);
    var average, peak := AverageCpu(evidence), PeakCpu(evidence);
    When(status == Some(Completed) && RecentGitActivity(evidence), Conflict(JiraGitConflict, High))
    + When(status == Some(Inactive) && peak.Some? && peak.value >= 75.0, Conflict(JiraIdleHighLoad, High))
    + When(average.Some? && peak.Some? && average.value <= 30.0 && peak.value >= 75.0,
           Conflict(LowAverageHighPeak, Medium))
    + When(ItemBySource(evidence, Dependencies).Some? && ActiveDependencies(evidence),
           Conflict(ActiveDependencyRisk, High))
    + When(StaleItem(ItemBySource(evidence, Utilization)), Conflict(StaleUtilization, Medium))
  }

  predicate Claims(conflicts: seq<Conflict>, claim: Claim) {
    exists c <- conflicts :: c.claim == claim
  }

  predicate HasHigh(conflicts: seq<Conflict>) {
    exists c <- conflicts :: c.severity == High
  }

  /** Jira says the work is finished while Git shows recent commits. */
  predicate JiraGitDisagree(evidence: seq<Item>) {
    StatusOfJira(evidence) == Some(Completed) && RecentGitActivity(evidence)
  }

  lemma JiraGitClaimIff(evidence: seq<Item>)
    ensures Claims(DetectConflicts(evidence), JiraGitConflict) <==> JiraGitDisagree(evidence)
  {
  }

  lemma ActiveDependencyIsHigh(evidence: seq<Item>)
    requires ActiveDependencies(evidence)
    ensures HasHigh(DetectConflicts(evidence))
  {
  }

  function Place(claim: Claim): nat {
    match claim
    case JiraGitConflict => 0
    case JiraIdleHighLoad => 1
    case LowAverageHighPeak => 2
    case ActiveDependencyRisk => 3
    case StaleUtilization => 4
  }

  /** In order, without repetition, and all before place `n`. */
  predicate Ordered(conflicts: seq<Conflict>, n: nat) {
    && (forall c <- conflicts :: Place(c.claim) < n)
    && (forall i, j | 0 <= i < j < |conflicts| :: Place(conflicts[i].claim) < Place(conflicts[j].claim))
  }

  /** A conflict appended under a condition. */
  lemma ReportedOneMore(conflicts: seq<Conflict>, condition: bool, c: Conflict)
    requires Ordered(conflicts, Place(c.claim))
    ensures Ordered(conflicts + When(condition, c), Place(c.claim) + 1)
    ensures forall x ::
              Claims(conflicts + When(condition, c), x) <==> Claims(conflicts, x) || (condition && x == c.claim)
  {
    var more := conflicts + When(condition, c);
    assert forall d :: d in more <==> d in conflicts || (condition && d == c);
    forall x ensures Claims(more, x) <==> Claims(conflicts, x) || (condition && x == c.claim) {
      if condition && x == c.claim { assert c in more; }
    }
  }

  /** Each conflict is reported once and exactly when the evidence disagrees in its way, in a fixed order, with its
      severity. */
  lemma ClaimedIff(evidence: seq<Item>)
    ensures var conflicts := DetectConflicts(evidence);
            var status, average, peak := StatusOfJira(evidence), AverageCpu(evidence), PeakCpu(evidence);
            && (Claims(conflicts, JiraGitConflict) <==> JiraGitDisagree(evidence))
            && (Claims(conflicts, JiraIdleHighLoad) <==> status == Some(Inactive) && peak.Some? && peak.value >= 75.0)
            && (Claims(conflicts, LowAverageHighPeak) <==>
                  average.Some? && peak.Some? && average.value <= 30.0 && peak.value >= 75.0)
            && (Claims(conflicts, ActiveDependencyRisk) <==> ActiveDependencies(evidence))
            && (Claims(conflicts, StaleUtilization) <==> StaleItem(ItemBySource(evidence, Utilization)))
            && Ordered(conflicts, 5)
            && (forall c <- conflicts ::
                  c.severity == if c.claim == LowAverageHighPeak || c.claim == StaleUtilization then Medium else High)
  {
    hide RecentGitActivity, AverageCpu, PeakCpu, StaleItem, StatusOfJira, Ordered, Claims, When;
    NothingReported();
    var status, average, peak := StatusOfJira(evidence), AverageCpu(evidence), PeakCpu(evidence);
    var c1 := When(JiraGitDisagree(evidence), Conflict(JiraGitConflict, High));
    ReportedOneMore([], JiraGitDisagree(evidence), Conflict(JiraGitConflict, High));
    assert [] + c1 == c1;
    var idle := status == Some(Inactive) && peak.Some? && peak.value >= 75.0;
    ReportedOneMore(c1, idle, Conflict(JiraIdleHighLoad, High));
    var c2 := c1 + When(idle, Conflict(JiraIdleHighLoad, High));
    var spiky := average.Some? && peak.Some? && average.value <= 30.0 && peak.value >= 75.0;
    ReportedOneMore(c2, spiky, Conflict(LowAverageHighPeak, Medium));
    var c3 := c2 + When(spiky, Conflict(LowAverageHighPeak, Medium));
    var active := ItemBySource(evidence, Dependencies).Some? && ActiveDependencies(evidence);
    ReportedOneMore(c3, active, Conflict(ActiveDependencyRisk, High));
    var c4 := c3 + When(active, Conflict(ActiveDependencyRisk, High));
    ReportedOneMore(c4, StaleItem(ItemBySource(evidence, Utilization)), Conflict(StaleUtilization, Medium));
  }

  lemma NothingReported()
    ensures Ordered([], 0) && forall x :: !Claims([], x)
  {
  }
}
