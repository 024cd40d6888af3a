/** Collected evidence and the first-match lookups every later stage rests on
    (core/evidence_utils.py, app/models.py). */
module Evidence {
  import opened Wrappers

  /** A tool name; `Other` stands for any name the decision rules never mention. */
  datatype Source = Pricing | Utilization | Jira | GitActivity | Dependencies | HumanReview | Other(name: string)

  datatype Freshness = Fresh | Stale | Unavailable | Unknown

  datatype JiraStatus = Completed | Inactive | OtherStatus

  type Fraction = r: real | 0.0 <= r <= 1.0

  /** The dictionary entries the rules read; `None` is an absent or non-numeric entry. */
  datatype Facts = Facts(
    averageCpu: Option<real>,
    peakCpu: Option<real>,
    currentCost: Option<real>,
    proposedCost: Option<real>,
    activeDependencies: bool,
    status: Option<JiraStatus>,
    issueKey: bool,
    recentCommits: Option<real>,
    daysSinceCommit: Option<real>)

  const NO_FACTS := Facts(None, None, None, None, false, None, false, None, None)

  /** `value` is `None` when the recorded value is not a dictionary. */
  datatype Item = Item(source: Source, freshness: Freshness, reliability: Fraction, value: Option<Facts>)

  datatype Resource = Resource(production: bool, destructive: bool, hasProposedType: bool, hasOwnerTag: bool)

  datatype Missing = Missing(source: Source, critical: bool)

  predicate IsCritical(source: Source) {
    source == Pricing || source == Utilization || source == Dependencies
  }

  function ItemBySource(evidence: seq<Item>, source: Source): (r: Option<Item>)
    ensures r.Some? ==> r.value in evidence && r.value.source == source
    ensures r.None? ==> forall e <- evidence :: e.source != source
  {
    if evidence == [] then None
    else if evidence[0].source == source then Some(evidence[0])
    else ItemBySource(evidence[1..], source)
  }

  function ValueFor(evidence: seq<Item>, source: Source): Facts {
    match ItemBySource(evidence, source)
    case Some(Item(_, _, _, Some(facts))) => facts
    case _ => NO_FACTS
  }

  predicate SourceUnavailable(evidence: seq<Item>, source: Source) {
    var item := ItemBySource(evidence, source);
    item.None? || item.value.freshness == Unavailable
  }

  function AverageCpu(evidence: seq<Item>): Option<real> {
    ValueFor(evidence, Utilization).averageCpu
  }

  function PeakCpu(evidence: seq<Item>): Option<real> {
    ValueFor(evidence, Utilization).peakCpu
  }

  predicate ActiveDependencies(evidence: seq<Item>) {
    ValueFor(evidence, Dependencies).activeDependencies
  }

  function StatusOfJira(evidence: seq<Item>): Option<JiraStatus> {
    ValueFor(evidence, Jira).status
  }

  predicate RecentGitActivity(evidence: seq<Item>) {
    var git := ValueFor(evidence, GitActivity);
    || (git.recentCommits.Some? && git.recentCommits.value > 0.0)
    || (git.daysSinceCommit.Some? && git.daysSinceCommit.value <= 7.0)
  }

  function MonthlySavings(evidence: seq<Item>): real {
    var pricing := ValueFor(evidence, Pricing);
    if pricing.currentCost.None? || pricing.proposedCost.None? then 0.0
    else pricing.currentCost.value - pricing.proposedCost.value
  }

  /** `WorkflowService._missing_from_evidence` and the first half of the engine's helper. */
  function MissingFromEvidence(evidence: seq<Item>): (r: seq<Missing>)
    ensures forall s ::
              Missing(s, IsCritical(s)) in r <==> exists e <- evidence :: e.freshness == Unavailable && e.source == s
    ensures forall m <- r :: m.critical == IsCritical(m.source)
  {
    if evidence == [] then []
    else if evidence[0].freshness == Unavailable then
      [Missing(evidence[0].source, IsCritical(evidence[0].source))] + MissingFromEvidence(evidence[1..])
    else MissingFromEvidence(evidence[1..])
  }

  predicate CriticalMissing(missing: seq<Missing>) {
    exists m <- missing :: m.critical
  }

  /** Critical evidence was asked for and came back unavailable. */
  predicate UnavailableCritical(evidence: seq<Item>) {
    exists e <- evidence :: e.freshness == Unavailable && IsCritical(e.source)
  }

  lemma CriticalMissingIff(evidence: seq<Item>)
    ensures CriticalMissing(MissingFromEvidence(evidence)) <==> UnavailableCritical(evidence)
  {
  }

  lemma {:induction false} LookupSkipsOther(evidence: seq<Item>, more: seq<Item>, source: Source)
    requires forall e <- more :: e.source != source
    ensures ItemBySource(evidence + more, source) == ItemBySource(evidence, source)
  {
    if evidence == [] {
      assert evidence + more == more;
    } else {
      assert (evidence + more)[1..] == evidence[1..] + more;
      LookupSkipsOther(evidence[1..], more, source);
    }
  }

  lemma {:induction false} MissingSkipsAvailable(evidence: seq<Item>, more: seq<Item>)
    requires forall e <- more :: e.freshness != Unavailable
    ensures MissingFromEvidence(evidence + more) == MissingFromEvidence(evidence)
  {
    if evidence == [] {
      assert evidence + more == more;
      NothingMissing(more);
    } else {
      assert (evidence + more)[1..] == evidence[1..] + more;
      MissingSkipsAvailable(evidence[1..], more);
    }
  }

  lemma {:induction false} NothingMissing(evidence: seq<Item>)
    requires forall e <- evidence :: e.freshness != Unavailable
    ensures MissingFromEvidence(evidence) == []
  {
    if evidence != [] {
      NothingMissing(evidence[1..]);
    }
  }
}
