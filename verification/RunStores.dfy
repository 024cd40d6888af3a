/** The run store with its version bump and idempotency keys (core/run_store.py), and the service calls that go through
    it (core/workflow_service.py, `start_run`, `review_run`, `cancel_goal`). */
module RunStores {
  import opened Wrappers
  import opened ReviewWorkflow
  import opened ReviewSafety
  import opened WorkflowRuns
  import ReasoningEngine
  import AlternativeGenerator

  /** The stored runs; each comes with the note whether its creator has issued the analysis update. */
  type Runs = map<nat, Case>

  /** The empty key is falsy: such a run is stored without any uniqueness check. */
  predicate Truthy(key: Option<string>) {
    key.Some? && key.value != ""
  }

  ghost predicate UniqueKeys(runs: Runs) {
    forall a, b | a in runs && b in runs && Truthy(runs[a].run.key) && runs[a].run.key == runs[b].run.key :: a == b
  }

  ghost predicate Owns(runs: Runs, id: nat, key: string) {
    id in runs && runs[id].run.key == Some(key)
  }

  predicate KeyTaken(runs: Runs, key: Option<string>) {
    Truthy(key) && exists other <- runs :: runs[other].run.key == key
  }

  /** `organization` is `None` for the unscoped calls. */
  predicate Visible(runs: Runs, id: nat, organization: Option<nat>) {
    id in runs && (organization.Some? ==> runs[id].run.organization == organization.value)
  }

  datatype Op =
    | Create(id: nat, run: RunState)
    | Update(id: nat, organization: Option<nat>, step: Step)

  /** One store call. `id` comes from `uuid4`, so a creation never names a stored run. */
  function Attempted(runs: Runs, op: Op): Result<Runs, Refusal> {
    match op
    case Create(id, run) =>
      if id in runs || KeyTaken(runs, run.key) then Failure(DuplicateKey) else Success(runs[id := Case(run, false)])
    case Update(id, organization, step) =>
      if !Visible(runs, id, organization) then Failure(UnknownRun)
      else
        var r := Attempt(runs[id], step);
        if r.Failure? then Failure(r.error) else Success(runs[id := r.value])
  }

  /** When a store call is applied: a creation exactly if no other run has its key, where no key and the empty one are
      free for all; an update exactly if the run is there for the organization and the step is. */
  lemma StoreCallAppliesIff(runs: Runs, op: Op)
    ensures match op
            case Create(id, run) =>
              && (Attempted(runs, op).Success? <==>
                    id !in runs
                    && (run.key in {None, Some("")} || forall other <- runs :: runs[other].run.key != run.key))
              && (Attempted(runs, op).Success? ==> Attempted(runs, op).value == runs[id := Case(run, false)])
            case Update(id, organization, step) =>
              && (Attempted(runs, op).Success? <==>
                    && id in runs && (organization == None || organization == Some(runs[id].run.organization))
                    && Attempt(runs[id], step).Success?)
              && (Attempted(runs, op).Success? ==> Attempted(runs, op).value == runs[id := Next(runs[id], step)])
  {
    hide Attempt;
  }

  function After(runs: Runs, ops: seq<Op>): Runs {
    if ops == [] then runs
    else
      var before := After(runs, ops[..|ops| - 1]);
      var r := Attempted(before, ops[|ops| - 1]);
      if r.Success? then r.value else before
  }

  lemma AttemptKeepsIdentity(c: Case, step: Step)
    ensures var r := Attempt(c, step);
            r.Success? ==>
              && r.value.run.version == c.run.version + 1
              && r.value.run.key == c.run.key && r.value.run.organization == c.run.organization
  {
    hide AnalysisDecision, Repeat, ClosingKind, Act, Consecutive;
    if step.HandleReview? {
      ActKeepsIdentity(c.run, step.request, step.world);
    }
  }

  lemma ActKeepsIdentity(s: RunState, request: Request, world: World)
    ensures var r := Act(s, request, world);
            r.Success? ==> r.value.key == s.key && r.value.organization == s.organization
  {
    hide Act;
    if request.kind == Approve {
      ApprovalKeepsIdentity(s, request, world);
    } else {
      OthersKeepIdentity(s, request, world);
    }
  }

  lemma ApprovalKeepsIdentity(s: RunState, request: Request, world: World)
    requires request.kind == Approve
    ensures var r := Act(s, request, world);
            r.Success? ==> r.value.key == s.key && r.value.organization == s.organization
  {
    hide Repeat, MockPrFor, CanApprove, Consecutive;
  }

  lemma OthersKeepIdentity(s: RunState, request: Request, world: World)
    requires request.kind != Approve
    ensures var r := Act(s, request, world);
            r.Success? ==> r.value.key == s.key && r.value.organization == s.organization
  {
    hide ReasoningEngine.Recalculate, ReasoningEngine.Modified, Without, PolicyKinds, Repeat, CanModify, Consecutive;
    hide AlternativeGenerator.FirstWith;
  }

  // ----- every interleaving of store calls -----

  function CountApplied(runs: Runs, ops: seq<Op>, id: nat, counts: Op -> bool): nat {
    if ops == [] then 0
    else
      var before, op := After(runs, ops[..|ops| - 1]), ops[|ops| - 1];
      CountApplied(runs, ops[..|ops| - 1], id, counts)
      + if op.Update? && op.id == id && counts(op) && Attempted(before, op).Success? then 1 else 0
  }

  const ANY_UPDATE: Op -> bool := op => true

  /** A review request pinned to one version of the run. */
  function ReviewAt(version: nat): Op -> bool {
    (op: Op) => op.Update? && op.step.HandleReview? && op.step.expected == Some(version)
  }

  /** No two stored runs share a key, and a run never disappears nor changes key or organization; its version counts the
      updates applied to it. */
  lemma {:induction false} StoreOverTime(runs: Runs, ops: seq<Op>)
    requires UniqueKeys(runs)
    ensures UniqueKeys(After(runs, ops))
    ensures forall id <- runs :: id in After(runs, ops) && After(runs, ops)[id].run.key == runs[id].run.key
              && After(runs, ops)[id].run.organization == runs[id].run.organization
              && After(runs, ops)[id].run.version == runs[id].run.version + CountApplied(runs, ops, id, ANY_UPDATE)
  {
    hide Attempt;
    if ops != [] {
      var before, op := After(runs, ops[..|ops| - 1]), ops[|ops| - 1];
      StoreOverTime(runs, ops[..|ops| - 1]);
      if op.Update? && op.id in before {
        AttemptKeepsIdentity(before[op.id], op.step);
      }
    }
  }

  /** At most one review pinned to a given version of a run is ever applied, however requests interleave. */
  lemma {:induction false} OneReviewPerVersion(runs: Runs, ops: seq<Op>, id: nat, version: nat)
    ensures CountApplied(runs, ops, id, ReviewAt(version)) <= 1
    ensures CountApplied(runs, ops, id, ReviewAt(version)) == 1 ==>
              id in After(runs, ops) && After(runs, ops)[id].run.version > version
  {
    hide Act, AnalyzeRun, SkipRun, CancelRun;
    if ops != [] {
      var before, op := After(runs, ops[..|ops| - 1]), ops[|ops| - 1];
      OneReviewPerVersion(runs, ops[..|ops| - 1], id, version);
      if op.Update? && op.id in before {
        AttemptKeepsIdentity(before[op.id], op.step);
      }
    }
  }

  /** Once a run owns a key, no interleaving makes any other run own it. */
  lemma KeyStaysWithOneRun(runs: Runs, ops: seq<Op>, id: nat, other: nat, key: string)
    requires UniqueKeys(runs) && key != "" && Owns(runs, id, key)
    ensures Owns(After(runs, ops), other, key) <==> other == id
  {
    StoreOverTime(runs, ops);
  }

  /** The steps a sequence of store calls tries on one run. */
  function StepsOn(ops: seq<Op>, id: nat, organization: nat): seq<Step> {
    if ops == [] then []
    else
      var op := ops[|ops| - 1];
      StepsOn(ops[..|ops| - 1], id, organization)
      + if op.Update? && op.id == id && (op.organization.Some? ==> op.organization.value == organization) then [op.step]
        else []
  }

  predicate StepsRun(op: Op, id: nat, organization: nat) {
    op.Update? && op.id == id && (op.organization.Some? ==> op.organization.value == organization)
  }

  /** A store call tries its step on the run it names and leaves the others alone. */
  lemma AttemptedOnOne(runs: Runs, op: Op, id: nat)
    requires id in runs
    ensures var r := Attempted(runs, op);
            var c := if StepsRun(op, id, runs[id].run.organization) then Next(runs[id], op.step) else runs[id];
            if r.Success? then id in r.value && r.value[id] == c else runs[id] == c
  {
    hide Attempt, KeyTaken;
  }

  lemma StepsOneMore(ops: seq<Op>, id: nat, organization: nat)
    requires ops != []
    ensures var op, before := ops[|ops| - 1], StepsOn(ops[..|ops| - 1], id, organization);
            StepsOn(ops, id, organization) == if StepsRun(op, id, organization) then before + [op.step] else before
  {
  }

  lemma RunAgain(c: Case, steps: seq<Step>, step: Step)
    ensures Run(c, steps + [step]) == Next(Run(c, steps), step)
  {
    hide Next;
    assert (steps + [step])[..|steps|] == steps;
  }

  /** What other runs go through does not matter to a stored run: it is the run of its own steps. All that is proved
      about sequences of steps on a run therefore holds of every run in a store. */
  lemma {:induction false} StoredRunIsARun(runs: Runs, ops: seq<Op>, id: nat)
    requires UniqueKeys(runs) && id in runs
    ensures id in After(runs, ops)
    ensures After(runs, ops)[id] == Run(runs[id], StepsOn(ops, id, runs[id].run.organization))
  {
    hide Attempted, StepsOn, Next, UniqueKeys;
    if ops == [] {
      assert StepsOn(ops, id, runs[id].run.organization) == [] by { NoSteps(id, runs[id].run.organization); }
    } else {
      var prefix, op := ops[..|ops| - 1], ops[|ops| - 1];
      var organization := runs[id].run.organization;
      StoredRunIsARun(runs, prefix, id);
      StoreOverTime(runs, prefix);
      AttemptedOnOne(After(runs, prefix), op, id);
      StepsOneMore(ops, id, organization);
      if StepsRun(op, id, organization) {
        RunAgain(runs[id], StepsOn(prefix, id, organization), op.step);
      }
    }
  }

  lemma NoSteps(id: nat, organization: nat)
    ensures StepsOn([], id, organization) == []
  {
  }

  ghost predicate AllInvariant(runs: Runs) {
    forall id <- runs :: Invariant(runs[id])
  }

  /** Runs enter a store as the services build them. */
  ghost predicate CreatesStarting(ops: seq<Op>) {
    forall op <- ops :: op.Create? ==> Starting(Case(op.run, false))
  }

  /** Every run of every reachable store keeps the safety invariant; the ones showing an open pull request were approved
      safely. */
  lemma {:induction false} StoreIsSafe(ops: seq<Op>)
    requires CreatesStarting(ops)
    ensures AllInvariant(After(map[], ops))
    ensures forall id <- After(map[], ops) ::
              After(map[], ops)[id].run.status == PrCreated ==> ApprovedSafely(After(map[], ops)[id].run)
  {
    hide Attempt, Starting, ApprovedSafely;
    if ops != [] {
      var prefix, op := ops[..|ops| - 1], ops[|ops| - 1];
      assert op in ops && forall o <- prefix :: o in ops;
      StoreIsSafe(prefix);
      var before := After(map[], prefix);
      match op
      case Create(_, run) => ReachableInvariant(Case(run, false), []);
      case Update(id, _, step) =>
        if id in before { StepKeepsInvariant(before[id], step); }
    }
  }

  class RunStore {
    var runs: map<nat, RunState>
    /** The runs whose creator has not issued the analysis update yet. */
    ghost var awaiting: set<nat>

    ghost function Cases(): (r: Runs)
      reads this
      ensures r.Keys == runs.Keys && forall id <- runs :: r[id] == Case(runs[id], id !in awaiting)
    {
      map id <- runs :: Case(runs[id], id !in awaiting)
    }

    /** Keys are unique and every stored run is safe. */
    ghost predicate Valid()
      reads this
    {
      UniqueKeys(Cases()) && AllInvariant(Cases())
    }

    constructor ()
      ensures Valid() && Cases() == map[]
    {
      runs := map[];
      awaiting := {};
    }

    method FindByKey(key: string, organization: nat) returns (id: Option<nat>)
      requires Valid()
      ensures id.Some? ==>
                id.value in runs && runs[id.value].key == Some(key) && runs[id.value].organization == organization
      ensures id.None? && key != "" ==>
                forall other <- runs :: runs[other].key == Some(key) ==> runs[other].organization != organization
    {
      if other :| other in runs && runs[other].key == Some(key) {
        assert Cases()[other].run.key == Some(key);
        return if runs[other].organization == organization then Some(other) else None;
      }
      return None;
    }

    method CreateRun(id: nat, run: RunState) returns (refusal: Option<Refusal>)
      requires Valid() && id !in runs && Starting(Case(run, false))
      modifies this
      ensures Valid()
      ensures var r := Attempted(old(Cases()), Create(id, run));
              if r.Success? then refusal.None? && Cases() == r.value
              else refusal == Some(r.error) && Cases() == old(Cases())
      ensures awaiting == if refusal.None? then old(awaiting) + {id} else old(awaiting)
    {
      hide Starting, Invariant, UniqueKeys, AllInvariant;
      assert KeyTaken(Cases(), run.key) <==> Truthy(run.key) && exists other <- runs :: runs[other].key == run.key;
      if Truthy(run.key) && exists other <- runs :: runs[other].key == run.key { return Some(DuplicateKey); }
      KeptWithNew(Cases(), id, run);
      runs := runs[id := run];
      awaiting := awaiting + {id};
      refusal := None;
      assert Cases() == old(Cases())[id := Case(run, false)];
    }

    /** An analysis is issued by the creator of the run only, once. */
    method UpdateRun(id: nat, organization: Option<nat>, step: Step) returns (refusal: Option<Refusal>)
      requires Valid()
      requires step.Analyze? || step.Skip? ==> id in awaiting
      modifies this
      ensures Valid()
      ensures var r := Attempted(old(Cases()), Update(id, organization, step));
              if r.Success? then refusal.None? && Cases() == r.value
              else refusal == Some(r.error) && Cases() == old(Cases())
    {
      hide Invariant, Attempt;
      if id !in runs || (organization.Some? && runs[id].organization != organization.value) { return Some(UnknownRun); }
      ghost var before := Cases();
      var replacement;
      replacement, refusal := ApplyUpdater(runs[id], id !in awaiting, step);
      if refusal.Some? { return; }
      KeptWith(before, id, step);
      runs := runs[id := replacement];
      awaiting := if step.Analyze? || step.Skip? then awaiting - {id} else awaiting;
      assert Cases() == before[id := Attempt(before[id], step).value];
    }
  }

  /** The updater runs on a deep copy, which is then stamped with the next version. */
  method ApplyUpdater(current: RunState, ghost analyzed: bool, step: Step)
    returns (replacement: RunState, refusal: Option<Refusal>)
    requires Invariant(Case(current, analyzed)) && (step.Analyze? || step.Skip? ==> !analyzed)
    ensures var r := Attempt(Case(current, analyzed), step);
            if r.Success? then refusal.None? && r.value == Case(replacement, analyzed || step.Analyze? || step.Skip?)
            else refusal == Some(r.error)
  {
    hide Invariant, AnalyzeRun, SkipRun, CancelRun, ReviewRun;
    var copy := new WorkflowRun.Copy(current, analyzed);
    refusal := None;
    match step {
      case Analyze(a) => copy.ExecuteAnalysis(a);
      case Skip => copy.SkipAnalysis();
      case HandleReview(expected, request, world) => refusal := copy.HandleReviewRequest(expected, request, world);
      case Cancel => refusal := copy.CancelGoal();
    }
    copy.version := current.version + 1;
    replacement := copy.Snapshot();
  }

  lemma KeptWithNew(runs: Runs, id: nat, run: RunState)
    requires UniqueKeys(runs) && AllInvariant(runs) && id !in runs && !KeyTaken(runs, run.key)
             && Starting(Case(run, false))
    ensures var after := runs[id := Case(run, false)]; UniqueKeys(after) && AllInvariant(after)
  {
    hide Invariant, Starting;
    ReachableInvariant(Case(run, false), []);
  }

  lemma KeptWith(runs: Runs, id: nat, step: Step)
    requires UniqueKeys(runs) && AllInvariant(runs) && id in runs && Attempt(runs[id], step).Success?
    ensures var after := runs[id := Attempt(runs[id], step).value]; UniqueKeys(after) && AllInvariant(after)
  {
    hide Invariant, Attempt;
    AttemptKeepsIdentity(runs[id], step);
    StepKeepsInvariant(runs[id], step);
  }

  class WorkflowService {
    const store: RunStore

    constructor (store: RunStore)
      ensures this.store == store
    {
      this.store := store;
    }

    /** One start with nobody interleaving (`Starts` has the interleavings): the returned run owns the key, it is new
        exactly when nobody owned the key, and the call is refused exactly when another organization does. */
    method StartRun(id: nat, run: RunState, analysis: Analysis) returns (r: Result<(nat, bool), Refusal>)
      requires store.Valid() && id !in store.runs && Starting(Case(run, false))
      modifies store
      ensures store.Valid()
      ensures r.Success? && Truthy(run.key) ==>
                Owns(store.Cases(), r.value.0, run.key.value) && store.runs[r.value.0].organization == run.organization
      ensures r.Success? && r.value.1 ==>
                r.value.0 == id
                && store.Cases() == old(store.Cases())[id := Case(Stored(run, AnalyzeRun(run, analysis)), true)]
      ensures r.Failure? || !r.value.1 ==> store.Cases() == old(store.Cases())
      ensures r.Success? ==> (r.value.1 <==> !KeyTaken(old(store.Cases()), run.key))
      ensures r.Failure? <==> KeyTaken(old(store.Cases()), run.key)
                              && exists other <- old(store.Cases()) :: Held(old(store.Cases()), other, run)
    {
      hide Invariant, AnalyzeRun, SkipRun, CancelRun, ReviewRun, Starting;
      if Truthy(run.key) {
        var existing := store.FindByKey(run.key.value, run.organization);
        if existing.Some? {
          assert Owns(store.Cases(), existing.value, run.key.value);
          assert forall other <- store.Cases() :: !Held(store.Cases(), other, run);
          return Success((existing.value, false));
        }
      }
      AttemptKeepsIdentity(Case(run, false), Analyze(analysis));
      var refusal := store.CreateRun(id, run);
      if refusal.Some? {
        if Truthy(run.key) {
          var existing := store.FindByKey(run.key.value, run.organization);
          if existing.Some? { return Success((existing.value, false)); }
        }
        ghost var other :| other in store.Cases() && store.Cases()[other].run.key == run.key;
        assert Held(store.Cases(), other, run);
        return Failure(refusal.value);
      }
      refusal := store.UpdateRun(id, Some(run.organization), Analyze(analysis));
      return Success((id, true));
    }

    /** What a review request does to the store and what it answers. Approving a run that already shows a pull request
        returns it untouched; everything else is one store update, and each of its refusals is raised. */
    method ReviewStored(id: nat, organization: nat, expected: Option<nat>, request: Request, world: World)
      returns (r: Result<bool, Refusal>)
      requires store.Valid()
      modifies store
      ensures store.Valid()
      ensures var cases := old(store.Cases());
              var spec := Attempted(cases, Update(id, Some(organization), HandleReview(expected, request, world)));
              if !Visible(cases, id, Some(organization)) then r == Failure(UnknownRun) && store.Cases() == cases
              else if request.kind == Approve && cases[id].run.status == PrCreated then
                r == Success(false) && store.Cases() == cases
              else if spec.Failure? then r == Failure(spec.error) && store.Cases() == cases
              else r == Success(request.kind == Approve) && store.Cases() == spec.value
    {
      hide Invariant, Attempt;
      if id !in store.runs || store.runs[id].organization != organization { return Failure(UnknownRun); }
      if request.kind == Approve && store.runs[id].status == PrCreated { return Success(false); }
      var refusal := store.UpdateRun(id, Some(organization), HandleReview(expected, request, world));
      if refusal.Some? { return Failure(refusal.value); }
      return Success(request.kind == Approve);
    }

    method CancelStored(id: nat, organization: nat) returns (refusal: Option<Refusal>)
      requires store.Valid()
      modifies store
      ensures store.Valid()
      ensures var spec := Attempted(old(store.Cases()), Update(id, Some(organization), Cancel));
              if spec.Success? then refusal.None? && store.Cases() == spec.value
              else refusal == Some(spec.error) && store.Cases() == old(store.Cases())
    {
      refusal := store.UpdateRun(id, Some(organization), Cancel);
    }
  }

  /** The key is held by a run of another organization. */
  predicate Held(runs: Runs, other: nat, run: RunState) {
    other in runs && runs[other].run.key == run.key && runs[other].run.organization != run.organization
  }
}
