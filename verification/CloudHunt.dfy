/** Cloud hunts, their summaries and the review cases they open (core/cloud_hunt_service.py). */
module CloudHunt {
  import opened Wrappers

  datatype Provider = AWS | Azure | GCP

  datatype Signal = ActiveDependency | ProductionResource | RecentActivity | OtherSignal

  datatype Resource = Resource(provider: Provider, id: string, terraformAddress: Option<string>, cost: real)

  /** What the candidate rules say of a resource (core/cloud_candidates.py is an input here). */
  datatype Assessment = Assessment(signals: seq<Signal>, requiresInvestigation: bool)

  datatype Candidate = Candidate(resource: Resource, assessment: Assessment)

  datatype CaseStatus =
    | Pending | Approved | Rejected | ApprovalRevoked | Reopened | PendingHumanReview | NeedsMoreEvidence
    | ProposalPrepared | RemediationPrCreated | Waived | PrCreated

  datatype Case = Case(
    organization: nat, hunt: nat, resourceId: string, candidate: Option<Candidate>, terraformAddress: Option<string>,
    status: CaseStatus, simulatedPr: bool, waiverExpiry: Option<int>, version: nat, audited: nat)

  datatype Counts = Counts(scanned: nat, candidates: nat, protected: nat, waste: real)

  type Breakdown = map<Provider, Counts>

  datatype Summary = Summary(total: nat, healthy: int, candidates: nat, protected: nat, needsContext: nat, waste: real,
                             breakdown: Breakdown)

  datatype Hunt = Hunt(organization: nat, scanned: nat, investigations: nat, candidates: seq<Candidate>, found: nat,
                       protected: nat, summary: Summary)

  predicate HasSignal(c: Candidate, signal: Signal) {
    signal in c.assessment.signals
  }

  /** `_is_protected`: only a hunt's own candidates can be protected. */
  predicate IsProtected(c: Option<Candidate>) {
    c.Some?
    && (HasSignal(c.value, ActiveDependency) || HasSignal(c.value, ProductionResource)
        || HasSignal(c.value, RecentActivity))
  }

  // ----- selection -----

  predicate ActivelyWaived(waivers: map<string, int>, id: string, now: int) {
    id in waivers && waivers[id] > now
  }

  predicate Selects(assess: Resource -> Assessment, waivers: map<string, int>, resource: Resource, now: int) {
    assess(resource).requiresInvestigation && !ActivelyWaived(waivers, resource.id, now)
  }

  /** The candidates a hunt opens cases for; `now(i)` is the clock when the i-th resource is looked at. */
  function Selected(resources: seq<Resource>, assess: Resource -> Assessment, waivers: map<string, int>,
                    now: nat -> int): (r: seq<Candidate>)
    ensures |r| <= |resources|
    ensures forall c <- r ::
              c.resource in resources && c.assessment == assess(c.resource) && c.assessment.requiresInvestigation
  {
    if resources == [] then []
    else
      var n := |resources| - 1;
      Selected(resources[..n], assess, waivers, now)
      + if Selects(assess, waivers, resources[n], now(n)) then [Candidate(resources[n], assess(resources[n]))] else []
  }

  function NewCase(organization: nat, hunt: nat, candidate: Candidate): Case {
    Case(organization, hunt, candidate.resource.id, Some(candidate), candidate.resource.terraformAddress,
         if HasSignal(candidate, RecentActivity) then NeedsMoreEvidence else Pending, false, None, 1, 0)
  }

  // ----- summaries -----

  function CountOf<T>(items: seq<T>, counts: T -> bool): nat {
    if items == [] then 0 else CountOf(items[..|items| - 1], counts) + if counts(items[|items| - 1]) then 1 else 0
  }

  function CostOf(candidates: seq<Candidate>, counts: Candidate -> bool): real {
    if candidates == [] then 0.0
    else CostOf(candidates[..|candidates| - 1], counts)
         + if counts(candidates[|candidates| - 1]) then candidates[|candidates| - 1].resource.cost else 0.0
  }

  const ANY: Candidate -> bool := c => true
  const PROTECTED: Candidate -> bool := c => IsProtected(Some(c))
  const UNPROTECTED: Candidate -> bool := c => !IsProtected(Some(c))
  const RECENT: Candidate -> bool := c => HasSignal(c, RecentActivity)

  function From(provider: Provider): Resource -> bool {
    (r: Resource) => r.provider == provider
  }

  function On(provider: Provider, counts: Candidate -> bool): Candidate -> bool {
    (c: Candidate) => c.resource.provider == provider && counts(c)
  }

  const NO_COUNTS := Counts(0, 0, 0, 0.0)

  function At(breakdown: Breakdown, provider: Provider): Counts {
    if provider in breakdown then breakdown[provider] else NO_COUNTS
  }

  predicate Shows(breakdown: Breakdown, p: Provider, resources: seq<Resource>, candidates: seq<Candidate>) {
    && (p in breakdown <==> CountOf(resources, From(p)) > 0)
    && At(breakdown, p) ==
         Counts(CountOf(resources, From(p)), CountOf(candidates, On(p, ANY)), CountOf(candidates, On(p, PROTECTED)),
                CostOf(candidates, On(p, ANY)))
  }

  /** What the summary's per-provider table must show. */
  predicate BreakdownOf(breakdown: Breakdown, resources: seq<Resource>, candidates: seq<Candidate>) {
    forall p: Provider :: Shows(breakdown, p, resources, candidates)
  }

  lemma {:induction false} MemberIsCounted(resources: seq<Resource>, r: Resource)
    requires r in resources
    ensures CountOf(resources, From(r.provider)) > 0
  {
    var prefix := resources[..|resources| - 1];
    if r != resources[|resources| - 1] {
      assert r in prefix;
      MemberIsCounted(prefix, r);
    }
  }

  lemma CountOneMore<T>(items: seq<T>, item: T, counts: T -> bool)
    ensures CountOf(items + [item], counts) == CountOf(items, counts) + if counts(item) then 1 else 0
  {
    assert (items + [item])[..|items|] == items;
  }

  lemma CostOneMore(candidates: seq<Candidate>, c: Candidate, counts: Candidate -> bool)
    ensures CostOf(candidates + [c], counts) == CostOf(candidates, counts) + if counts(c) then c.resource.cost else 0.0
  {
    assert (candidates + [c])[..|candidates|] == candidates;
  }

  lemma ScanOne(breakdown: Breakdown, resources: seq<Resource>, r: Resource)
    requires BreakdownOf(breakdown, resources, [])
    ensures var item := At(breakdown, r.provider);
            BreakdownOf(breakdown[r.provider := item.(scanned := item.scanned + 1)], resources + [r], [])
  {
    var item := At(breakdown, r.provider);
    var next, more := breakdown[r.provider := item.(scanned := item.scanned + 1)], resources + [r];
    forall p: Provider ensures Shows(next, p, more, []) {
      assert Shows(breakdown, p, resources, []);
      CountOneMore(resources, r, From(p));
    }
  }

  lemma ChargeOne(breakdown: Breakdown, resources: seq<Resource>, candidates: seq<Candidate>, c: Candidate)
    requires BreakdownOf(breakdown, resources, candidates) && c.resource in resources
    ensures c.resource.provider in breakdown
    ensures var item := breakdown[c.resource.provider];
            BreakdownOf(breakdown[c.resource.provider :=
              Counts(item.scanned, item.candidates + 1, item.protected + (if IsProtected(Some(c)) then 1 else 0),
                     item.waste + c.resource.cost)],
              resources, candidates + [c])
  {
    assert Shows(breakdown, c.resource.provider, resources, candidates);
    MemberIsCounted(resources, c.resource);
    var item := breakdown[c.resource.provider];
    var next := breakdown[c.resource.provider :=
      Counts(item.scanned, item.candidates + 1, item.protected + (if IsProtected(Some(c)) then 1 else 0),
             item.waste + c.resource.cost)];
    forall p: Provider ensures Shows(next, p, resources, candidates + [c]) {
      assert Shows(breakdown, p, resources, candidates);
      CountOneMore(candidates, c, On(p, ANY));
      CountOneMore(candidates, c, On(p, PROTECTED));
      CostOneMore(candidates, c, On(p, ANY));
    }
  }

  /** `_summary`: the second loop's lookup never misses, because every candidate's resource was scanned. */
  method Summarize(resources: seq<Resource>, candidates: seq<Candidate>) returns (s: Summary)
    requires forall c <- candidates :: c.resource in resources
    ensures BreakdownOf(s.breakdown, resources, candidates)
    ensures s.total == |resources| && s.candidates == |candidates| && s.healthy == |resources| - |candidates|
    ensures s.protected == CountOf(candidates, PROTECTED) && s.needsContext == CountOf(candidates, RECENT)
    ensures s.waste == CostOf(candidates, UNPROTECTED)
  {
    hide BreakdownOf, CountOf, CostOf, IsProtected;
    var breakdown: Breakdown := map[];
    EmptyBreakdown();
    for i := 0 to |resources|
      invariant BreakdownOf(breakdown, resources[..i], [])
    {
      var r := resources[i];
      ScanOne(breakdown, resources[..i], r);
      assert resources[..i] + [r] == resources[..i + 1];
      var item := At(breakdown, r.provider);
      breakdown := breakdown[r.provider := item.(scanned := item.scanned + 1)];
    }
    assert resources[..|resources|] == resources;
    for i := 0 to |candidates|
      invariant BreakdownOf(breakdown, resources, candidates[..i])
    {
      var c := candidates[i];
      ChargeOne(breakdown, resources, candidates[..i], c);
      assert candidates[..i] + [c] == candidates[..i + 1];
      var item := breakdown[c.resource.provider];
      item := item.(candidates := item.candidates + 1);
      if IsProtected(Some(c)) { item := item.(protected := item.protected + 1); }
      item := item.(waste := item.waste + c.resource.cost);
      breakdown := breakdown[c.resource.provider := item];
    }
    assert candidates[..|candidates|] == candidates;
    s := Summary(|resources|, |resources| - |candidates|, |candidates|, CountOf(candidates, PROTECTED),
                 CountOf(candidates, RECENT),
                 CostOf(candidates, UNPROTECTED), breakdown);
  }

  lemma EmptyBreakdown()
    ensures BreakdownOf(map[], [], [])
  {
    forall p: Provider ensures Shows(map[], p, [], []) {
    }
  }

  lemma {:induction false} ResourcesByProvider(resources: seq<Resource>)
    ensures CountOf(resources, From(AWS)) + CountOf(resources, From(Azure)) + CountOf(resources, From(GCP))
            == |resources|
  {
    if resources != [] {
      ResourcesByProvider(resources[..|resources| - 1]);
    }
  }

  lemma {:induction false} CandidatesByProvider(candidates: seq<Candidate>, counts: Candidate -> bool)
    ensures CountOf(candidates, On(AWS, counts)) + CountOf(candidates, On(Azure, counts))
            + CountOf(candidates, On(GCP, counts)) == CountOf(candidates, counts)
    ensures CostOf(candidates, On(AWS, counts)) + CostOf(candidates, On(Azure, counts))
            + CostOf(candidates, On(GCP, counts)) == CostOf(candidates, counts)
  {
    if candidates != [] {
      CandidatesByProvider(candidates[..|candidates| - 1], counts);
    }
  }

  lemma {:induction false} EveryoneCounts(candidates: seq<Candidate>)
    ensures CountOf(candidates, ANY) == |candidates|
    ensures CostOf(candidates, ANY) == CostOf(candidates, PROTECTED) + CostOf(candidates, UNPROTECTED)
  {
    if candidates != [] {
      EveryoneCounts(candidates[..|candidates| - 1]);
    }
  }

  /** Conservation: the per-provider counters add up to the summary's totals. The per-provider waste also includes the
      protected candidates, which the summary's waste leaves out. */
  lemma BreakdownAddsUp(breakdown: Breakdown, resources: seq<Resource>, candidates: seq<Candidate>)
    requires BreakdownOf(breakdown, resources, candidates)
    ensures var a, z, g := At(breakdown, AWS), At(breakdown, Azure), At(breakdown, GCP);
            && a.scanned + z.scanned + g.scanned == |resources|
            && a.candidates + z.candidates + g.candidates == |candidates|
            && a.protected + z.protected + g.protected == CountOf(candidates, PROTECTED)
            && a.waste + z.waste + g.waste == CostOf(candidates, UNPROTECTED) + CostOf(candidates, PROTECTED)
  {
    assert Shows(breakdown, AWS, resources, candidates) && Shows(breakdown, Azure, resources, candidates)
           && Shows(breakdown, GCP, resources, candidates);
    ResourcesByProvider(resources);
    CandidatesByProvider(candidates, ANY);
    CandidatesByProvider(candidates, PROTECTED);
    EveryoneCounts(candidates);
  }

  // ----- the service -----

  datatype Action =
    | Approve | Reject | Waive(expiry: Option<int>) | AskEvidence | AddContext | AddFollowUpContext
    | Modify(named: bool) | RevokeApproval | ReopenCase

  datatype Refusal = NotFound | StaleVersion | AlreadyClosed | ProtectedResource | WaiverRequired | ActionRequired
      | NothingToRevoke | NothingToReopen

  predicate Mapped(c: Case) {
    c.terraformAddress.Some? && c.terraformAddress.value != ""
  }

  predicate Closed(status: CaseStatus) {
    status == Rejected || status == Waived || status == PrCreated || status == RemediationPrCreated
  }

  /** `act_on_case` on one case, version check included. */
  function ActOn(c: Case, action: Action, expected: Option<nat>): Result<Case, Refusal> {
    if expected.Some? && expected.value != c.version then Failure(StaleVersion)
    else if Closed(c.status) && action != ReopenCase then Failure(AlreadyClosed)
    else
      var n := c.(version := c.version + 1, audited := c.audited + 1);
      match action
      case Approve =>
        if IsProtected(c.candidate) then Failure(ProtectedResource)
        else Success(n.(simulatedPr := true, status := if Mapped(c) then RemediationPrCreated else ProposalPrepared))
      case Reject => Success(n.(status := Rejected))
      case Waive(expiry) =>
        if expiry.None? then Failure(WaiverRequired)
        else Success(n.(status := Waived, waiverExpiry := expiry, audited := c.audited + 2))
      case AskEvidence => Success(n.(status := NeedsMoreEvidence))
      case AddContext => Success(n.(status := PendingHumanReview))
      case AddFollowUpContext => Success(n.(status := PendingHumanReview))
      case Modify(named) => if !named then Failure(ActionRequired) else Success(n.(status := PendingHumanReview))
      case RevokeApproval =>
        if c.status != Approved && c.status != PrCreated && c.status != RemediationPrCreated
           && c.status != ProposalPrepared then Failure(NothingToRevoke)
        else Success(n.(status := ApprovalRevoked))
      case ReopenCase =>
        if c.status != Rejected && c.status != ApprovalRevoked && c.status != RemediationPrCreated
           && c.status != ProposalPrepared
           && c.status != PrCreated then Failure(NothingToReopen)
        else Success(n.(status := Reopened))
  }

  /** Case identifiers come from `uuid4`: distinct, and new to the store. */
  predicate FreshIds(ids: seq<nat>, cases: map<nat, Case>) {
    && (forall i, j | 0 <= i < j < |ids| :: ids[i] != ids[j])
    && forall i | 0 <= i < |ids| :: ids[i] !in cases
  }

  /** The store after a hunt opened one case per candidate, under the drawn identifiers. */
  function WithCases(cases: map<nat, Case>, ids: seq<nat>, organization: nat, hunt: nat,
                     candidates: seq<Candidate>): map<nat, Case>
    requires |candidates| <= |ids|
  {
    if candidates == [] then cases
    else
      var n := |candidates| - 1;
      WithCases(cases, ids, organization, hunt, candidates[..n])[ids[n] := NewCase(organization, hunt, candidates[n])]
  }

  /** Exactly one new case per candidate, and every old case untouched. */
  lemma {:induction false} OneCasePerCandidate(cases: map<nat, Case>, ids: seq<nat>, organization: nat, hunt: nat,
                                               candidates: seq<Candidate>)
    requires FreshIds(ids, cases) && |candidates| <= |ids|
    ensures var after := WithCases(cases, ids, organization, hunt, candidates);
            && |after| == |cases| + |candidates|
            && (forall k | 0 <= k < |candidates| ::
                  ids[k] in after && after[ids[k]] == NewCase(organization, hunt, candidates[k]))
            && (forall id <- after :: id in cases || id in ids[..|candidates|])
            && (forall id <- cases :: id in after && after[id] == cases[id])
  {
    hide NewCase;
    if candidates != [] {
      var n := |candidates| - 1;
      OneCasePerCandidate(cases, ids, organization, hunt, candidates[..n]);
      var before := WithCases(cases, ids, organization, hunt, candidates[..n]);
      assert ids[n] !in before;
    }
  }

  lemma OpenOneMore(cases: map<nat, Case>, ids: seq<nat>, organization: nat, hunt: nat, candidates: seq<Candidate>,
                    c: Candidate)
    requires |candidates| < |ids|
    ensures WithCases(cases, ids, organization, hunt, candidates + [c])
         == WithCases(cases, ids, organization, hunt, candidates)[ids[|candidates|] := NewCase(organization, hunt, c)]
  {
    assert (candidates + [c])[..|candidates|] == candidates;
  }

  lemma SelectOneMore(resources: seq<Resource>, i: nat, assess: Resource -> Assessment, waivers: map<string, int>,
                      now: nat -> int)
    requires i < |resources|
    ensures Selected(resources[..i + 1], assess, waivers, now)
         == Selected(resources[..i], assess, waivers, now)
            + if Selects(assess, waivers, resources[i], now(i)) then [Candidate(resources[i], assess(resources[i]))]
              else []
  {
    assert resources[..i + 1][..i] == resources[..i];
  }

  lemma NothingYet(assess: Resource -> Assessment, waivers: map<string, int>, now: nat -> int,
                   cases: map<nat, Case>, ids: seq<nat>, organization: nat, hunt: nat)
    ensures Selected([], assess, waivers, now) == [] && WithCases(cases, ids, organization, hunt, []) == cases
  {
  }

  predicate Remediated(status: CaseStatus) {
    status == ProposalPrepared || status == RemediationPrCreated || status == PrCreated || status == Approved
  }

  /** A protected candidate has no simulated pull request and no remediation status, a remediation pull request has a
      Terraform address, and the statuses `approved` and `pr_created` never occur. */
  predicate Sound(c: Case) {
    && c.candidate.Some? && c.resourceId == c.candidate.value.resource.id
    && c.terraformAddress == c.candidate.value.resource.terraformAddress
    && (IsProtected(c.candidate) ==> !c.simulatedPr && !Remediated(c.status))
    && (c.status == RemediationPrCreated ==> Mapped(c) && c.simulatedPr)
    && (c.status == ProposalPrepared ==> !Mapped(c) && c.simulatedPr)
    && (c.status == Waived ==> c.waiverExpiry.Some?)
    && c.status != Approved && c.status != PrCreated && c.version >= 1
  }

  /** A case opens for review, or for more evidence if the resource was active recently. */
  lemma NewCaseOpens(organization: nat, hunt: nat, candidate: Candidate)
    ensures var c := NewCase(organization, hunt, candidate);
            && (c.status == NeedsMoreEvidence <==> RecentActivity in candidate.assessment.signals)
            && (c.status == Pending <==> RecentActivity !in candidate.assessment.signals)
            && c.version == 1 && c.audited == 0 && !c.simulatedPr && c.waiverExpiry == None
            && c.organization == organization && c.hunt == hunt
    ensures Sound(NewCase(organization, hunt, candidate)) && NewCase(organization, hunt, candidate).status != Waived
  {
  }

  lemma ActOnKeepsSound(c: Case, action: Action, expected: Option<nat>)
    requires Sound(c)
    ensures var r := ActOn(c, action, expected); r.Success? ==> Sound(r.value) && r.value.candidate == c.candidate
  {
    hide HasSignal;
  }

  class CloudHuntService {
    var cases: map<nat, Case>
    var hunts: map<nat, Hunt>
    var waivers: map<string, int>

    /** Every case is sound, and a waived resource has a waiver on file. */
    predicate Valid()
      reads this
    {
      forall id <- cases :: Sound(cases[id]) && (cases[id].status == Waived ==> cases[id].resourceId in waivers)
    }

    constructor ()
      ensures Valid() && cases == map[] && hunts == map[] && waivers == map[]
    {
      cases, hunts, waivers := map[], map[], map[];
    }

    /** One case per selected candidate, none for an actively waived resource, and matching counters. `ids` are fresh
        identifiers; `now(i)` is the clock at the i-th resource. */
    method StartHunt(huntId: nat, organization: nat, resources: seq<Resource>, assess: Resource -> Assessment,
                     ids: seq<nat>, now: nat -> int)
      returns (hunt: Hunt)
      requires Valid() && FreshIds(ids, cases) && |resources| <= |ids|
      modifies this
      ensures Valid()
      ensures waivers == old(waivers) && hunts == old(hunts)[huntId := hunt]
      ensures hunt.candidates == Selected(resources, assess, waivers, now)
      ensures hunt.found == hunt.investigations == |hunt.candidates| && hunt.scanned == |resources|
      ensures hunt.protected == CountOf(hunt.candidates, PROTECTED)
      ensures BreakdownOf(hunt.summary.breakdown, resources, hunt.candidates)
      ensures hunt.summary.healthy + hunt.summary.candidates == hunt.summary.total == |resources|
              && hunt.summary.healthy >= 0
      ensures hunt.summary.protected == hunt.protected && hunt.summary.waste == CostOf(hunt.candidates, UNPROTECTED)
      ensures cases == WithCases(old(cases), ids, organization, huntId, hunt.candidates)
      ensures |cases| == |old(cases)| + |hunt.candidates|
    {
      hide CountOf, BreakdownOf, CostOf, IsProtected, ActivelyWaived, FreshIds, NewCase, Selected, WithCases, Sound;
      NothingYet(assess, waivers, now, cases, ids, organization, huntId);
      var active: seq<Candidate>, created := [], 0;
      for i := 0 to |resources|
        invariant active == Selected(resources[..i], assess, waivers, now) && created == |active|
        invariant waivers == old(waivers) && hunts == old(hunts) && Valid()
        invariant cases == WithCases(old(cases), ids, organization, huntId, active)
      {
        SelectOneMore(resources, i, assess, waivers, now);
        var candidate := Candidate(resources[i], assess(resources[i]));
        if !candidate.assessment.requiresInvestigation { continue; }
        if ActivelyWaived(waivers, candidate.resource.id, now(i)) { continue; }
        OpenOneMore(old(cases), ids, organization, huntId, active, candidate);
        active := active + [candidate];
        NewCaseOpens(organization, huntId, candidate);
        cases := cases[ids[created] := NewCase(organization, huntId, candidate)];
        created := created + 1;
      }
      assert resources[..|resources|] == resources;
      OneCasePerCandidate(old(cases), ids, organization, huntId, active);
      var summary := Summarize(resources, active);
      hunt := Hunt(organization, |resources|, created, active, |active|, CountOf(active, PROTECTED), summary);
      hunts := hunts[huntId := hunt];
    }

    method ActOnCase(id: nat, organization: nat, action: Action,
                     expected: Option<nat>) returns (refusal: Option<Refusal>)
      requires Valid()
      modifies this
      ensures Valid()
      ensures hunts == old(hunts)
      ensures id !in old(cases) || old(cases)[id].organization != organization ==>
                refusal == Some(NotFound) && cases == old(cases)
      ensures id in old(cases) && old(cases)[id].organization == organization ==>
        var r := ActOn(old(cases)[id], action, expected);
        if r.Success? then refusal.None? && cases == old(cases)[id := r.value]
        else refusal == Some(r.error) && cases == old(cases)
      ensures waivers
              == if refusal.None? && action.Waive? then old(waivers)[old(cases)[id].resourceId := action.expiry.value]
                 else old(waivers)
    {
      hide Sound, IsProtected;
      if id !in cases || cases[id].organization != organization { return Some(NotFound); }
      var case_ := cases[id];
      ActOnKeepsSound(case_, action, expected);
      if expected.Some? && expected.value != case_.version { return Some(StaleVersion); }
      if Closed(case_.status) && action != ReopenCase { return Some(AlreadyClosed); }
      match action {
        case Approve =>
          if IsProtected(case_.candidate) { return Some(ProtectedResource); }
          case_ := case_.(simulatedPr := true);
          case_ := case_.(status := if Mapped(case_) then RemediationPrCreated else ProposalPrepared);
        case Reject => case_ := case_.(status := Rejected);
        case Waive(expiry) =>
          if expiry.None? { return Some(WaiverRequired); }
          waivers := waivers[case_.resourceId := expiry.value];
          case_ := case_.(waiverExpiry := expiry);
          case_ := case_.(status := Waived, audited := case_.audited + 1);
        case AskEvidence => case_ := case_.(status := NeedsMoreEvidence);
        case AddContext => case_ := case_.(status := PendingHumanReview);
        case AddFollowUpContext => case_ := case_.(status := PendingHumanReview);
        case Modify(named) =>
          if !named { return Some(ActionRequired); }
          case_ := case_.(status := PendingHumanReview);
        case RevokeApproval =>
          if case_.status != Approved && case_.status != PrCreated && case_.status != RemediationPrCreated
             && case_.status != ProposalPrepared {
            return Some(NothingToRevoke);
          }
          case_ := case_.(status := ApprovalRevoked);
        case ReopenCase =>
          if case_.status != Rejected && case_.status != ApprovalRevoked && case_.status != RemediationPrCreated
             && case_.status != ProposalPrepared && case_.status != PrCreated {
            return Some(NothingToReopen);
          }
          case_ := case_.(status := Reopened);
      }
      case_ := case_.(version := case_.version + 1);
      case_ := case_.(audited := case_.audited + 1);
      cases := cases[id := case_];
      refusal := None;
    }
  }

  /** The `i`-th resource is `r`, suspicious, and not waived when it is looked at. */
  predicate OfferedAt(resources: seq<Resource>, assess: Resource -> Assessment, waivers: map<string, int>,
                      now: nat -> int,
                      r: Resource, i: nat)
  {
    && i < |resources| && resources[i] == r && assess(r).requiresInvestigation
    && (r.id in waivers ==> waivers[r.id] <= now(i))
  }

  /** A waived resource gets no case while its waiver lasts, and every other suspicious one does. */
  lemma {:induction false} SelectedIff(resources: seq<Resource>, assess: Resource -> Assessment,
                                       waivers: map<string, int>, now: nat -> int, r: Resource)
    ensures Candidate(r, assess(r)) in Selected(resources, assess, waivers, now)
            <==> exists i: nat :: OfferedAt(resources, assess, waivers, now, r, i)
  {
    hide Selected;
    if resources == [] {
      NothingYet(assess, waivers, now, map[], [], 0, 0);
    } else {
      var n := |resources| - 1;
      var init := resources[..n];
      SelectedIff(init, assess, waivers, now, r);
      SelectOneMore(resources, n, assess, waivers, now);
      assert resources[..n + 1] == resources;
      assert forall i: nat | i < n ::
               OfferedAt(resources, assess, waivers, now, r, i) <==> OfferedAt(init, assess, waivers, now, r, i);
      assert OfferedAt(resources, assess, waivers, now, r, n)
             <==> resources[n] == r && Selects(assess, waivers, r, now(n));
    }
  }

  // ----- every sequence of actions on a case -----

  datatype Attempt = Attempt(action: Action, expected: Option<nat>)

  function Run(c: Case, attempts: seq<Attempt>): Case {
    if attempts == [] then c
    else
      var before, last := Run(c, attempts[..|attempts| - 1]), attempts[|attempts| - 1];
      var r := ActOn(before, last.action, last.expected);
      if r.Success? then r.value else before
  }

  function Applied(c: Case, attempts: seq<Attempt>): nat {
    if attempts == [] then 0
    else
      var last := attempts[|attempts| - 1];
      Applied(c, attempts[..|attempts| - 1])
      + if ActOn(Run(c, attempts[..|attempts| - 1]), last.action, last.expected).Success? then 1 else 0
  }

  /** Whatever reviewers try: a protected candidate never gets a simulated pull request or a remediation status, a
      remediation pull request implies a Terraform address, statuses `approved` and `pr_created` never occur, and the
      version is one plus the number of applied actions. */
  lemma {:induction false} CaseStaysSafe(organization: nat, hunt: nat, candidate: Candidate, attempts: seq<Attempt>)
    ensures var c := Run(NewCase(organization, hunt, candidate), attempts);
            && Sound(c) && c.candidate == Some(candidate)
            && c.version == 1 + Applied(NewCase(organization, hunt, candidate), attempts)
  {
    if attempts == [] {
      NewCaseOpens(organization, hunt, candidate);
    } else {
      hide Sound, NewCase, IsProtected;
      var prefix, last := attempts[..|attempts| - 1], attempts[|attempts| - 1];
      CaseStaysSafe(organization, hunt, candidate, prefix);
      ActOnKeepsSound(Run(NewCase(organization, hunt, candidate), prefix), last.action, last.expected);
    }
  }

  /** A waived case accepts nothing ever again. */
  lemma {:induction false} WaivedIsAbsorbing(c: Case, attempts: seq<Attempt>)
    requires c.status == Waived
    ensures Run(c, attempts) == c && Applied(c, attempts) == 0
  {
    if attempts != [] {
      WaivedIsAbsorbing(c, attempts[..|attempts| - 1]);
    }
  }

  /** The code lists more revocable statuses, but its earlier closed-case check leaves only an unmapped proposal: a case
      with a remediation pull request can be reopened, never revoked. */
  lemma {:induction false} RevocableIff(organization: nat, hunt: nat, candidate: Candidate, attempts: seq<Attempt>)
    ensures var c := Run(NewCase(organization, hunt, candidate), attempts);
            ActOn(c, RevokeApproval, None).Success? <==> c.status == ProposalPrepared
  {
    CaseStaysSafe(organization, hunt, candidate, attempts);
  }
}
