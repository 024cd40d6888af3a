/** Runs that show what the theorems leave open: each starts from a created run, its analysis comes from the planner
    working on a plan for it, and every step is a service call. */
module Witnesses {
  import opened Wrappers
  import opened Evidence
  import opened ConflictDetector
  import opened AlternativeGenerator
  import opened Verifier
  import opened PolicyEngine
  import opened Confidence
  import opened ReasoningEngine
  import opened HumanContext
  import opened ReviewWorkflow
  import opened ReviewSafety
  import opened Comments
  import opened Overrides
  import AI = AIPlanner
  import PlanMerge
  import Planner

  /** A scenario run as `start_run` creates it. */
  function NewRun(resource: Resource, conflicting: bool): Case {
    Case(RunState(0, None, resource, conflicting, false, false, Created, None, [], [], None, None, 1), false)
  }

  function AnalysisFor(r: AI.PlannerResult, evaluate: Evaluator): Analysis {
    Analysis(AI.Names(r.executions), r.executions, r.evidence, MissingWithUnresolved(r.evidence, r.unresolved),
             evaluate, false, NotRaised, 0)
  }

  function WorldOf(evaluate: Evaluator, gathered: seq<Item>, records: seq<Execution>): World {
    World(evaluate, false, {Pricing, Utilization, Jira, GitActivity, Dependencies}, gathered, records, 0, 100,
          RemoteOff)
  }

  function Comment(evaluate: Evaluator): Step {
    HandleReview(None, Request(AddContext, "reviewer", [], None, true), WorldOf(evaluate, [], []))
  }

  function Approval(evaluate: Evaluator): Step {
    HandleReview(None, Request(Approve, "reviewer", [], None, false), WorldOf(evaluate, [], []))
  }

  const PYTHON: Evaluator := PythonEvaluator(0.7)

  lemma RunOneMore(c: Case, steps: seq<Step>, step: Step)
    ensures Run(c, steps + [step]) == Next(Run(c, steps), step)
  {
    assert (steps + [step])[..|steps|] == steps;
  }

  const DONE := Item(Jira, Fresh, 1.0, Some(NO_FACTS.(status := Some(Completed))))

  // ----- a comment instead of a dependency check -----

  const QUIET_BOX := Resource(false, false, true, true)
  const IDLE := Item(Utilization, Fresh, 1.0, Some(NO_FACTS.(averageCpu := Some(10.0), peakCpu := Some(20.0))))
  const CHEAPER := Item(Pricing, Fresh, 1.0, Some(NO_FACTS.(currentCost := Some(100.0), proposedCost := Some(40.0))))

  const THIN := [CHEAPER, IDLE]
  const THIN_TOOLS := [Pricing, Utilization]

  /** What planning selected and the investigation left out. */
  const UNREAD := [Jira, Dependencies]

  lemma ThinFacts(evidence: seq<Item>)
    requires evidence == THIN || evidence == THIN + [CONTEXT]
    ensures ItemBySource(evidence, Utilization) == Some(IDLE) && ItemBySource(evidence, Pricing) == Some(CHEAPER)
    ensures forall s <- {Jira, GitActivity, Dependencies} :: ItemBySource(evidence, s) == None
    ensures DetectConflicts(evidence) == [] && MissingFromEvidence(evidence) == []
  {
    hide DetectConflicts, ItemBySource, MissingFromEvidence;
    ThinBase();
    ContextAddsNoFacts(THIN);
    SameFactsSameConflicts(THIN + [CONTEXT], THIN);
    assert {Jira, GitActivity, Dependencies} <= FACT_SOURCES;
  }

  lemma ThinBase()
    ensures ItemBySource(THIN, Utilization) == Some(IDLE) && ItemBySource(THIN, Pricing) == Some(CHEAPER)
    ensures forall s <- {Jira, GitActivity, Dependencies} :: ItemBySource(THIN, s) == None
    ensures DetectConflicts(THIN) == [] && MissingFromEvidence(THIN) == []
  {
    NothingMissing(THIN);
    assert THIN[1..] == [IDLE];
  }

  lemma ThinMeans()
    ensures Mean(ReliabilityValues(THIN)) == 1.0 && Mean(FreshnessValues(THIN)) == 1.0
  {
    assert [] + [CHEAPER] == [CHEAPER] && [CHEAPER] + [IDLE] == THIN;
    ValuesOfAppend([], CHEAPER);
    ValuesOfAppend([CHEAPER], IDLE);
    SumAppend([1.0], 1.0);
  }

  lemma ThinCompleteness()
    ensures Completeness(THIN, THIN_TOOLS) == 1.0
  {
    var wanted := set s <- THIN_TOOLS;
    assert IDLE in THIN && CHEAPER in THIN;
    assert wanted == {Utilization, Pricing} == AvailableSources(THIN) * wanted;
  }

  lemma ThinConfidence(policy: PolicyResult)
    requires policy.allowed && policy.status == AllPassed
    ensures CalculateConfidence(THIN, [], policy, THIN_TOOLS).final == 1.0
  {
    hide CalculateConfidence, Mean, ReliabilityValues, FreshnessValues, Completeness;
    ThinMeans();
    ThinCompleteness();
    FullConfidenceIff(THIN, [], policy, THIN_TOOLS);
  }

  lemma FirstRequestsEvidence(executions: seq<Execution>)
    ensures var first := BuildDecision(QUIET_BOX, false, THIN_TOOLS, executions, THIN,
                                       MissingWithUnresolved(THIN, UNREAD), PythonEvaluator(0.7));
            first.finalStatus == NeedsHumanContext && first.preferred == RequestEvidence
            && first.selectedTools == THIN_TOOLS
  {
    hide CalculateConfidence, RunVerifier, GenerateAlternatives, DetectConflicts, MissingFromEvidence, EvaluatePolicy;
    hide Ask;
    hide MissingWithUnresolved, PythonEvaluator;
    ThinFacts(THIN);
    var missing := MissingWithUnresolved(THIN, UNREAD);
    UnreadIsMissing();
    assert missing[1].critical;
    var choice := InitialChoice(QUIET_BOX, false, THIN, missing);
    var confidence := PythonAsked(QUIET_BOX, THIN, missing, choice, THIN_TOOLS, [], 0.7);
    OtherActionsAllowedIff(QUIET_BOX, THIN, missing, RequestEvidence, [], OwnerKnown(QUIET_BOX, THIN), Some(confidence),
                           0.7);
  }

  lemma UnreadIsMissing()
    ensures MissingWithUnresolved(THIN, UNREAD) == [Missing(Jira, false), Missing(Dependencies, true)]
  {
    hide MissingFromEvidence;
    ThinFacts(THIN);
    var known := KnownSources(THIN);
    assert UNREAD[1..] == [Dependencies] && [Dependencies][1..] == [];
    var one := [Missing(Jira, false)];
    assert [] + one == one;
    assert WithUnresolved(known, one, [Dependencies]) == one + [Missing(Dependencies, true)];
  }

  lemma ThinChoice()
    ensures ExpectedAction(QUIET_BOX, THIN, [], [], false) == Downsize && OwnerKnown(QUIET_BOX, THIN)
    ensures Defensible(QUIET_BOX, THIN, [], Downsize) && AverageCpu(THIN).Some?
  {
    hide DetectConflicts, MissingFromEvidence, ItemBySource;
    ThinFacts(THIN);
  }

  /** The Python policy passes downsizing here at any confidence that meets the bound. */
  lemma ThinPasses(confidence: Option<real>)
    requires confidence.Some? ==> confidence.value >= 0.7
    ensures var policy := EvaluatePolicy(QUIET_BOX, THIN, [], Downsize, RunVerifier(QUIET_BOX, THIN, [], Downsize), [],
                                         true, confidence, 0.7);
            policy.allowed && policy.status == AllPassed
  {
    hide RunVerifier, Blocking, Defensible, AverageCpu;
    ThinChoice();
    RemediationAllowedIff(QUIET_BOX, THIN, [], Downsize, [], true, confidence, 0.7);
  }

  lemma SecondDownsizes(first: Decision, executions: seq<Execution>)
    requires first.selectedTools == THIN_TOOLS && first.preferred == RequestEvidence
    ensures var second := Recalculate(first, QUIET_BOX, THIN + [CONTEXT], executions, PYTHON);
            second.finalStatus == RecommendationReady && second.preferred == Downsize
  {
    hide Recalculate, RunVerifier, EvaluatePolicy, CalculateConfidence, GenerateAlternatives, DetectConflicts;
    hide MissingFromEvidence, ItemBySource;
    hide PythonEvaluator, ExpectedAction, OwnerKnown;
    var tools := THIN_TOOLS;
    ThinFacts(THIN);
    ThinChoice();
    assert THIN + [CONTEXT] == THIN + Contexts(1) && THIN + Contexts(0) == THIN;
    RecalculatedReads(first, QUIET_BOX, THIN, 1, executions, PYTHON);
    PythonReads(first, QUIET_BOX, THIN, 1, executions, 0.7);
    ThinPasses(None);
    ThinConfidence(PlainPolicy(QUIET_BOX, THIN, [], Downsize, RunVerifier(QUIET_BOX, THIN, [], Downsize), []));
    ProvisionalGrows(QUIET_BOX, THIN, 0, 1, Downsize, tools);
    ThinPasses(Some(ProvisionalFor(QUIET_BOX, THIN, 1, Downsize, tools)));
    ReadyWhenPassed(first, THIN + Contexts(1), executions);
  }

  lemma ReadyWhenPassed(prior: Decision, evidence: seq<Item>, executions: seq<Execution>)
    ensures var d := Recalculate(prior, QUIET_BOX, evidence, executions, PYTHON);
            IsRemediation(d.preferred) && d.policy.allowed && d.policy.status == AllPassed ==>
              d.finalStatus == RecommendationReady
  {
    hide RunVerifier, EvaluatePolicy, CalculateConfidence, GenerateAlternatives, DetectConflicts, MissingFromEvidence;
    hide ExpectedAction, Ask;
  }

  /** Tools that report an idle, cheaper box; all the tools a plan can name without a hint in its goal. */
  const BENCH := AI.Tools(Planner.NORMAL_TOOLS, (call: nat, tool: Source) => AI.Returned(Reports(tool)), evidence => [])

  function Reports(tool: Source): seq<Item> {
    match tool
    case Utilization => [IDLE]
    case Pricing => [CHEAPER]
    case Jira => [DONE]
    case _ => []
  }

  /** A model that looks at prices and utilization and then turns to a human. */
  const IMPATIENT := AI.Model(true, true, 8, AI.Interpreted(false), (step: nat) =>
    AI.Proposed(if step == 0 then AI.CallTool(false, Some(Pricing))
                else if step == 1 then AI.CallTool(false, Some(Utilization))
                else AI.AskHuman(false, true)))

  // A change of the instance type in a project at work, without known dependencies.
  function Resizing(resource: Resource, jira: Planner.WorkStatus): Planner.Context {
    Planner.Context(resource, false, false, false, false, false, true, false, true, true, jira, 0)
  }

  const COST := Planner.Question("cost_impact", [Pricing])
  const LOAD := Planner.Question("utilization", [Utilization])
  const PROJECT := Planner.Question("project_context", [Jira])
  const COMMITS := Planner.Question("git_activity", [GitActivity])
  const SERVICES := Planner.Question("dependencies", [Dependencies])

  /** A plan to which no model adds anything. */
  function Unassisted(context: Planner.Context, base: Planner.InvestigationPlan): PlanOrigin {
    PlanOrigin(context, base, false, false, PlanMerge.NoPlan, (id: string) => id)
  }

  const RESIZE_PLAN := Unassisted(Resizing(QUIET_BOX, Planner.Unsettled),
    Planner.InvestigationPlan([COST, LOAD, PROJECT, SERVICES], PLANNED, [GitActivity]))

  lemma QuestionsDiffer()
    ensures Planner.DistinctIds([COST, LOAD, PROJECT, SERVICES])
            && Planner.DistinctIds([COST, LOAD, PROJECT, COMMITS, SERVICES])
  {
    Planner.OwnPlaces();
  }

  lemma ResizeIsPlanned()
    ensures Planner.Plans(RESIZE_PLAN.context, BENCH.registered, RESIZE_PLAN.base)
  {
    hide Planner.DistinctIds;
    QuestionsDiffer();
    var plan := RESIZE_PLAN.base;
    assert COST in plan.questions && LOAD in plan.questions && PROJECT in plan.questions && SERVICES in plan.questions;
  }

  const PLANNED := [Pricing, Utilization, Jira, Dependencies]
  const ONE_READ := [Execution(Pricing, true)]
  const TWO_READS := [Execution(Pricing, true), Execution(Utilization, true)]
  const CUT_SHORT := AI.PlannerResult(TWO_READS, THIN, UNREAD, AI.HumanContextRequested)

  lemma OneRead(call: nat, tool: Source)
    requires tool == Utilization || tool == Pricing || tool == Jira
    ensures AI.Collected(BENCH, call, [tool]) == Reports(tool)
            && AI.Recorded(BENCH, call, [tool]) == [Execution(tool, true)]
  {
    AI.CollectedNothing(BENCH, call + 1);
  }

  lemma PlannedOpen(executions: seq<Execution>)
    requires executions == [] || executions == ONE_READ || executions == TWO_READS
    ensures AI.Distinct(PLANNED) == PLANNED
    ensures AI.NotIn(PLANNED, AI.Names(executions)) == PLANNED[|executions|..]
  {
    hide AI.Distinct, AI.NotIn;
    PlanMerge.DistinctIsShort(PLANNED);
    OpenAfter(AI.Names(executions));
    assert AI.Names([]) == [] && AI.Names(ONE_READ) == [Pricing] && AI.Names(TWO_READS) == THIN_TOOLS;
    assert PLANNED[0..] == PLANNED && PLANNED[1..] == [Utilization, Jira, Dependencies] && PLANNED[2..] == UNREAD;
  }

  lemma OpenAfter(done: seq<Source>)
    ensures done == [] ==> AI.NotIn(PLANNED, done) == PLANNED
    ensures done == [Pricing] ==> AI.NotIn(PLANNED, done) == [Utilization, Jira, Dependencies]
    ensures done == THIN_TOOLS ==> AI.NotIn(PLANNED, done) == UNREAD
  {
    hide AI.NotIn;
    assert PLANNED == [Pricing] + [Utilization, Jira, Dependencies]
           && [Utilization, Jira, Dependencies] == [Utilization] + UNREAD;
    assert UNREAD == [Jira] + [Dependencies] && [Dependencies] == [Dependencies] + [];
    FirstOf(Dependencies, [], done);
    FirstOf(Jira, [Dependencies], done);
    FirstOf(Utilization, UNREAD, done);
    FirstOf(Pricing, [Utilization, Jira, Dependencies], done);
  }

  lemma FirstOf(tool: Source, rest: seq<Source>, done: seq<Source>)
    ensures AI.NotIn([], done) == []
    ensures AI.NotIn([tool] + rest, done) == if tool in done then AI.NotIn(rest, done)
                                             else [tool] + AI.NotIn(rest, done)
  {
    assert ([tool] + rest)[1..] == rest;
  }

  lemma CutAtTwo()
    ensures AI.Investigate(IMPATIENT, BENCH, false, PLANNED, 2, TWO_READS, THIN) == Some(CUT_SHORT)
  {
    hide AI.Collected, AI.Recorded, AI.NotIn, AI.Distinct;
    PlannedOpen(TWO_READS);
  }

  lemma CutAtOne()
    ensures AI.Investigate(IMPATIENT, BENCH, false, PLANNED, 1, ONE_READ, [CHEAPER]) == Some(CUT_SHORT)
  {
    hide AI.Collected, AI.Recorded, AI.NotIn, AI.Distinct;
    CutAtTwo();
    OneRead(1, Utilization);
    assert ONE_READ + [Execution(Utilization, true)] == TWO_READS && [CHEAPER] + [IDLE] == THIN;
  }

  lemma ImpatientIsCutShort()
    ensures AI.PlanResult(IMPATIENT, BENCH, QUIET_BOX, false, PLANNED) == Some(CUT_SHORT)
  {
    hide AI.Collected, AI.Recorded, AI.NotIn, AI.Distinct;
    CutAtOne();
    OneRead(0, Pricing);
    assert [] + ONE_READ == ONE_READ && [] + [CHEAPER] == [CHEAPER];
  }

  const SHORTCUT := [Analyze(AnalysisFor(CUT_SHORT, PYTHON)), Comment(PYTHON)]

  /** The decision of that analysis. */
  function CutShortDecision(): Decision {
    BuildDecision(QUIET_BOX, false, THIN_TOOLS, TWO_READS, THIN, MissingWithUnresolved(THIN, UNREAD), PYTHON)
  }

  lemma ShortcutRuns()
    ensures var c := NewRun(QUIET_BOX, false);
            && Settles(c.run, Run(c, SHORTCUT[..1]).run, Some(CutShortDecision()), NeedsMoreEvidence)
            && Settles(c.run, Run(c, SHORTCUT).run, Some(Commented(CutShortDecision(), QUIET_BOX, PYTHON)),
                       PendingHumanReview)
  {
    hide BuildDecision, Recalculate, MissingWithUnresolved, Attempt, Next, Run, PythonEvaluator;
    var c, a := NewRun(QUIET_BOX, false), AnalysisFor(CUT_SHORT, PYTHON);
    assert AI.Names(TWO_READS) == THIN_TOOLS;
    FirstRequestsEvidence(TWO_READS);
    var d := CutShortDecision();
    BuiltParts(QUIET_BOX, false, THIN_TOOLS, TWO_READS, THIN, MissingWithUnresolved(THIN, UNREAD), PYTHON);
    AnalysisStep(c, a);
    TwoSteps(c, SHORTCUT[0], SHORTCUT[1]);
    CommentStep(Next(c, SHORTCUT[0]), PYTHON);
    SecondDownsizes(d, TWO_READS);
  }

  /** Any comment can turn "evidence required" into an approved downsizing although the planned dependency check never
      ran, under the Python policy. */
  lemma ContextReplacesDependencyEvidence()
    ensures FromPlanner(RESIZE_PLAN, AnalysisFor(CUT_SHORT, PYTHON), IMPATIENT, BENCH)
    ensures var first := Run(NewRun(QUIET_BOX, false), SHORTCUT[..1]).run;
            first.status == NeedsMoreEvidence && first.decision.Some?
            && first.decision.value.preferred == RequestEvidence
    ensures var second := Run(NewRun(QUIET_BOX, false), SHORTCUT).run;
            second.status == PendingHumanReview && second.decision.Some? && second.decision.value.preferred == Downsize
            && ItemBySource(second.decision.value.evidence, Dependencies).None?
    ensures Run(NewRun(QUIET_BOX, false), SHORTCUT + [Approval(PYTHON)]).run.status == PrCreated
  {
    hide FromPlanner, CutShortDecision, Commented, Run, ItemBySource, PythonEvaluator;
    ShortcutIsPlanned();
    ShortcutRuns();
    ShortcutDecisions();
    ApprovedNext(NewRun(QUIET_BOX, false), SHORTCUT);
  }

  lemma ShortcutIsPlanned()
    ensures FromPlanner(RESIZE_PLAN, AnalysisFor(CUT_SHORT, PYTHON), IMPATIENT, BENCH)
  {
    hide AI.PlanResult, MissingWithUnresolved, Planner.Plans;
    ImpatientIsCutShort();
    ResizeIsPlanned();
  }

  lemma ShortcutDecisions()
    ensures var first := CutShortDecision();
            var second := Commented(first, QUIET_BOX, PYTHON);
            first.preferred == RequestEvidence && second.preferred == Downsize
            && ItemBySource(second.evidence, Dependencies).None?
  {
    hide BuildDecision, Recalculate, ItemBySource, MissingWithUnresolved, PythonEvaluator;
    FirstRequestsEvidence(TWO_READS);
    BuiltParts(QUIET_BOX, false, THIN_TOOLS, TWO_READS, THIN, MissingWithUnresolved(THIN, UNREAD), PYTHON);
    SecondDownsizes(CutShortDecision(), TWO_READS);
    RecalculatedCarries(CutShortDecision(), QUIET_BOX, THIN + [CONTEXT], TWO_READS, PYTHON);
    ThinFacts(THIN + [CONTEXT]);
  }

  /** The analysis of a new run. */
  lemma AnalysisStep(c: Case, a: Analysis)
    requires !c.analyzed && a.raised == NotRaised && !a.hasContext
    ensures var d := BuildDecision(c.run.resource, c.run.conflicting, a.selectedTools, a.executions, a.evidence,
                                   a.missing, a.evaluate);
            Settles(c.run, Next(c, Analyze(a)).run, Some(d), MapFinalStatus(d.finalStatus))
  {
    hide BuildDecision, Repeat, ClosingKind;
  }

  /** A comment, where comments are accepted. */
  lemma CommentStep(c: Case, evaluate: Evaluator)
    requires c.run.decision.Some? && c.run.status != PrCreated && c.run.status != Rejected
    ensures var d := Commented(c.run.decision.value, c.run.resource, evaluate);
            Settles(c.run, Next(c, Comment(evaluate)).run, Some(d), MapFinalStatus(d.finalStatus))
  {
    hide Recalculate, Repeat, PolicyKinds;
  }

  /** A step that left this decision and status and no other trace on the run than in its logs. */
  predicate Settles(s: RunState, t: RunState, decision: Option<Decision>, status: RunStatus) {
    && t.decision == decision && t.status == status && t.mockPr == s.mockPr && t.resource == s.resource
    && t.conflicting == s.conflicting && t.github == s.github && t.readOnly == s.readOnly
  }

  lemma TwoSteps(c: Case, one: Step, two: Step)
    ensures [one, two][..1] == [one] && Run(c, [one]) == Next(c, one) && Run(c, [one, two]) == Next(Next(c, one), two)
  {
    hide Next;
    RunOneMore(c, [], one);
    RunOneMore(c, [one], two);
    assert [] + [one] == [one] && [one] + [two] == [one, two];
  }

  /** A pending run reached under the Python policy is approved. */
  lemma ApprovedNext(c: Case, steps: seq<Step>)
    requires Starting(c) && !c.run.github && !c.run.readOnly
    requires forall i | 0 <= i < |steps| ::
               (steps[i].Analyze? && steps[i].analysis.evaluate == PYTHON)
               || (steps[i].HandleReview? && steps[i].world.evaluate == PYTHON)
    requires Run(c, steps).run.status == PendingHumanReview && Run(c, steps).run.mockPr.None?
    ensures Run(c, steps + [Approval(PYTHON)]).run.status == PrCreated
  {
    hide Run, Respectful, Starting, CanApprove, MockPrFor, Log, ApprovedSafely;
    PythonIsRespectful(0.7);
    ApprovalIsNeverStuck(c, steps, Approval(PYTHON).request, Approval(PYTHON).world);
    RunOneMore(c, steps, Approval(PYTHON));
  }

  lemma BuiltParts(resource: Resource, conflicting: bool, selected: seq<Source>, executions: seq<Execution>,
                   evidence: seq<Item>,
                   missing: seq<Missing>, evaluate: Evaluator)
    ensures var d := BuildDecision(resource, conflicting, selected, executions, evidence, missing, evaluate);
            d.evidence == evidence && d.missing == missing && d.executions == executions && d.selectedTools == selected
  {
    hide Ask;
  }

  // ----- an evidence request against a destructive block -----

  const DOOMED := Resource(false, true, true, true)
  const PERMISSIVE: Evaluator :=
    (resource, evidence, missing, preferred: Alternative, findings, conflicts, confidence) =>
      PolicyResult(true, AllPassed, [], IsRemediation(preferred.action))

  /** What the planner leaves a destructive change. */
  const NOTHING := AI.PlannerResult([], [], [], AI.HardPrecheck)

  const ASK_JIRA := HandleReview(None, Request(AskEvidence, "reviewer", [Jira], None, false),
                                 WorldOf(PERMISSIVE, [DONE], [Execution(Jira, true)]))

  const LIFTED := [Analyze(AnalysisFor(NOTHING, PERMISSIVE)), ASK_JIRA]

  lemma DoneFacts()
    ensures ItemBySource([DONE], Jira) == Some(DONE)
    ensures forall s <- {Utilization, GitActivity, Dependencies} :: ItemBySource([DONE], s) == None
    ensures SupportsIntermittentUse([DONE]) && !ActiveDependencies([DONE])
    ensures !HasHigh(DetectConflicts([DONE])) && !UnavailableCritical([DONE])
  {
  }

  lemma NothingMissingAtFirst()
    ensures MissingWithUnresolved([], []) == []
  {
  }

  /** The decision of that analysis: a conflict audit always asks for evidence. */
  function AuditDecision(): Decision {
    BuildDecision(DOOMED, true, [], [], [], [], PERMISSIVE)
  }

  lemma LiftedFirst()
    ensures var c := NewRun(DOOMED, true);
            && Settles(c.run, Run(c, LIFTED[..1]).run, Some(AuditDecision()), NeedsMoreEvidence)
            && Run(c, LIFTED) == Next(Run(c, LIFTED[..1]), ASK_JIRA)
  {
    hide BuildDecision, MissingWithUnresolved, Attempt, Next, Run;
    var c, a := NewRun(DOOMED, true), AnalysisFor(NOTHING, PERMISSIVE);
    assert AI.Names([]) == [];
    NothingMissingAtFirst();
    AnalysisStep(c, a);
    TwoSteps(c, LIFTED[0], LIFTED[1]);
    AuditAsks();
  }

  lemma AskedAudit(s: RunState)
    requires s.decision == Some(AuditDecision()) && s.resource == DOOMED && s.status == NeedsMoreEvidence
    ensures var r := Act(s, ASK_JIRA.request, ASK_JIRA.world);
            && r.Success? && r.value.status == PendingHumanReview && r.value.decision.Some?
            && r.value.resource == DOOMED
            && var d := r.value.decision.value;
               && d.preferred == Schedule && d.evidence == [DONE] && d.policy == PolicyResult(true, AllPassed, [], true)
  {
    hide BuildDecision, Recalculate, Act, SupportsIntermittentUse, DetectConflicts, ItemBySource, ScheduleAnswer;
    hide HasHigh, UnavailableCritical;
    AuditAsks();
    DoneFacts();
    var d := AuditDecision();
    AskApplies(s);
    assert Without([], [Jira]) + [DONE] == [DONE] && d.executions + [Execution(Jira, true)] == [Execution(Jira, true)];
    EvidenceRequestLiftsBlockIff(s, ASK_JIRA.request, ASK_JIRA.world);
    PermittedSchedule(d);
    RevisionKeepsResource(s, ASK_JIRA.request, ASK_JIRA.world);
    RecalculatedCarries(d, DOOMED, [DONE], [Execution(Jira, true)], PERMISSIVE);
    PermittedAnswer(d, DOOMED, [DONE], [Execution(Jira, true)]);
  }

  lemma PermittedSchedule(d: Decision)
    ensures ScheduleAnswer(d, DOOMED, [DONE], PERMISSIVE) == PolicyResult(true, AllPassed, [], true)
  {
    hide RunVerifier, CalculateConfidence, PlainPolicy, DetectConflicts, MissingFromEvidence;
  }

  lemma PermittedAnswer(prior: Decision, resource: Resource, evidence: seq<Item>, executions: seq<Execution>)
    ensures var d := Recalculate(prior, resource, evidence, executions, PERMISSIVE);
            d.policy == PolicyResult(true, AllPassed, [], IsRemediation(d.preferred))
  {
    hide RunVerifier, CalculateConfidence, PlainPolicy, GenerateAlternatives, DetectConflicts, MissingFromEvidence;
    hide ExpectedAction;
  }

  /** A conflict audit always asks for evidence. */
  lemma AuditAsks()
    ensures var d := BuildDecision(DOOMED, true, [], [], [], [], PERMISSIVE);
            d.preferred == RequestEvidence && d.finalStatus == NeedsHumanContext && d.evidence == []
            && d.executions == []
  {
    hide RunVerifier, CalculateConfidence, PlainPolicy, GenerateAlternatives, DetectConflicts;
  }

  lemma AskApplies(s: RunState)
    requires s.status == NeedsMoreEvidence && s.decision.Some?
    ensures Act(s, ASK_JIRA.request, ASK_JIRA.world).Success?
  {
    hide Recalculate, Log, PolicyKinds, Repeat, Without;
  }

  /** In a conflict audit of a deletion, under an evaluator that allows everything, a request for Jira's view alone
      lifts the destructive block: the run becomes pending with a schedule. Its critical finding still bars the
      approval. */
  lemma EvidenceRequestLiftsBlock(p: PlanOrigin, model: AI.Model, tools: AI.Tools)
    requires p.context.resource == DOOMED && p.context.conflicting && Planner.Plans(p.context, tools.registered, p.base)
    ensures FromPlanner(p, AnalysisFor(NOTHING, PERMISSIVE), model, tools)
    ensures var run := Run(NewRun(DOOMED, true), LIFTED).run;
            && run.status == PendingHumanReview && run.decision.Some? && run.decision.value.preferred == Schedule
            && CanApprove(run) == Some(CriticalCheckFails)
  {
    hide Run, Act, CriticalFailure, DetectConflicts, RunVerifier, GenerateAlternatives, AI.Investigate, AI.Complete;
    hide MissingWithUnresolved;
    hide BuildDecision, AuditDecision, ToolsPlanned, Planner.Plans;
    NothingMissingAtFirst();
    assert AI.Names([]) == [];
    var c := NewRun(DOOMED, true);
    LiftedFirst();
    AskedAudit(Run(c, LIFTED[..1]).run);
    HistoryStart(c, LIFTED);
    var d := Run(c, LIFTED).run.decision.value;
    CriticalFailureIff(DOOMED, d.evidence, d.conflicts, Schedule);
  }

  /** A run without an approval has no simulated pull request. */
  lemma HistoryStart(c: Case, steps: seq<Step>)
    requires c == NewRun(DOOMED, true) && steps == LIFTED
    ensures Invariant(Run(c, steps)) && Run(c, steps).run.mockPr.None?
  {
    hide Run, Next, Act, Invariant, BuildDecision, AuditDecision;
    NewRunStarts(DOOMED, true);
    ReachableInvariant(c, steps);
    LiftedFirst();
    AskKeepsPr(Run(c, LIFTED[..1]));
  }

  lemma AskKeepsPr(c: Case)
    ensures Next(c, ASK_JIRA).run.mockPr == c.run.mockPr
  {
    hide Recalculate, Log, PolicyKinds, Repeat, Without;
  }

  lemma NewRunStarts(resource: Resource, conflicting: bool)
    ensures Starting(NewRun(resource, conflicting))
  {
  }

  // ----- a simulated pull request that costs money, and its revocation -----

  const UNASSISTED := AI.Model(false, false, 0, AI.NotInterpreted, (step: nat) => AI.ReplyRaises)
  const DEARER := Item(Pricing, Fresh, 1.0, Some(NO_FACTS.(currentCost := Some(40.0), proposedCost := Some(100.0))))
  const DEAR_BENCH := AI.Tools([Pricing, Jira],
                               (call: nat, tool: Source) => AI.Returned(if tool == Pricing then [DEARER] else [DONE]),
                               evidence => [])
  const DEAR := [DEARER, DONE]
  const DEAR_READS := [Execution(Pricing, true), Execution(Jira, true)]
  const DEAR_TOOLS := [Pricing, Jira]
  const DEAR_PLAN := Unassisted(Resizing(QUIET_BOX, Planner.CompletedExactly),
    Planner.InvestigationPlan([COST, LOAD, PROJECT, COMMITS, SERVICES], DEAR_TOOLS, []))
  const PRICED := AI.PlannerResult(DEAR_READS, DEAR, [], AI.PlanCompleted)

  lemma DearIsPlanned()
    ensures AI.PlanResult(UNASSISTED, DEAR_BENCH, QUIET_BOX, false, DEAR_TOOLS) == Some(PRICED)
  {
    AI.CollectedNothing(DEAR_BENCH, 2);
    assert DEAR_TOOLS[1..] == [Jira] && [Jira][1..] == [];
    assert AI.NotIn([], []) == [] && AI.NotIn([Jira], []) == [Jira] && AI.NotIn(DEAR_TOOLS, []) == DEAR_TOOLS;
    assert AI.Names([]) == [];
    assert AI.Collected(DEAR_BENCH, 1, [Jira]) == [DONE]
           && AI.Recorded(DEAR_BENCH, 1, [Jira]) == [Execution(Jira, true)];
    assert [DEARER] + [DONE] == DEAR && [Execution(Pricing, true)] + [Execution(Jira, true)] == DEAR_READS;
    assert AI.Collected(DEAR_BENCH, 0, DEAR_TOOLS) == DEAR && AI.Recorded(DEAR_BENCH, 0, DEAR_TOOLS) == DEAR_READS;
    assert [] + DEAR == DEAR && [] + DEAR_READS == DEAR_READS;
  }

  lemma DearPlanIsMade()
    ensures Planner.Plans(DEAR_PLAN.context, DEAR_BENCH.registered, DEAR_PLAN.base)
  {
    hide Planner.DistinctIds;
    QuestionsDiffer();
    assert COST in DEAR_PLAN.base.questions && PROJECT in DEAR_PLAN.base.questions;
  }

  lemma DearFacts()
    ensures ItemBySource(DEAR, Pricing) == Some(DEARER) && ItemBySource(DEAR, Jira) == Some(DONE)
    ensures forall s <- {Utilization, GitActivity, Dependencies} :: ItemBySource(DEAR, s) == None
    ensures DetectConflicts(DEAR) == [] && MissingFromEvidence(DEAR) == [] && MonthlySavings(DEAR) == -60.0
    ensures ScheduleFacts(QUIET_BOX, DEAR)
  {
    NothingMissing(DEAR);
    assert DEAR[1..] == [DONE];
  }

  lemma DearConfidence(policy: PolicyResult)
    requires policy.allowed && policy.status == AllPassed
    ensures CalculateConfidence(DEAR, [], policy, DEAR_TOOLS).final == 1.0
  {
    hide CalculateConfidence, Mean, ReliabilityValues, FreshnessValues, Completeness;
    DearMeans();
    DearCompleteness();
    FullConfidenceIff(DEAR, [], policy, DEAR_TOOLS);
  }

  lemma DearCompleteness()
    ensures Completeness(DEAR, DEAR_TOOLS) == 1.0
  {
    var wanted := set s <- DEAR_TOOLS;
    assert DEARER in DEAR && DONE in DEAR;
    assert wanted == {Pricing, Jira} == AvailableSources(DEAR) * wanted;
  }

  lemma DearMeans()
    ensures Mean(ReliabilityValues(DEAR)) == 1.0 && Mean(FreshnessValues(DEAR)) == 1.0
  {
    assert [] + [DEARER] == [DEARER] && [DEARER] + [DONE] == DEAR;
    ValuesOfAppend([], DEARER);
    ValuesOfAppend([DEARER], DONE);
    SumAppend([1.0], 1.0);
  }

  /** The Python policy passes the schedule at any confidence that meets the bound. */
  lemma DearPasses(findings: seq<Finding>, confidence: Option<real>)
    requires confidence.Some? ==> confidence.value >= 0.7
    requires findings == [] || findings == RunVerifier(QUIET_BOX, DEAR, [], Schedule)
    ensures EvaluatePolicy(QUIET_BOX, DEAR, [], Schedule, findings, [], true, confidence, 0.7)
            == PolicyResult(true, AllPassed, [], true)
  {
    hide RunVerifier, ItemBySource, DetectConflicts, MissingFromEvidence;
    DearFacts();
    CriticalFailureIff(QUIET_BOX, DEAR, [], Schedule);
    NothingFails();
  }

  lemma NothingFails()
    ensures !CriticalFailure([]) && !CriticalMissing([]) && !Claims([], JiraGitConflict)
  {
  }

  function DearDecision(): Decision {
    BuildDecision(QUIET_BOX, false, DEAR_TOOLS, DEAR_READS, DEAR, [], PYTHON)
  }

  lemma DearIsScheduled()
    ensures var d := DearDecision();
            && d.preferred == Schedule && d.finalStatus == RecommendationReady && d.evidence == DEAR
            && d.executions == DEAR_READS && d.selectedTools == DEAR_TOOLS && d.policy.requiresApproval
  {
    hide RunVerifier, EvaluatePolicy, CalculateConfidence, GenerateAlternatives, DetectConflicts, MissingFromEvidence;
    hide ItemBySource, ScheduleFacts;
    DearFacts();
    DearChoice();
    BuiltParts(QUIET_BOX, false, DEAR_TOOLS, DEAR_READS, DEAR, [], PYTHON);
    DearPasses([], None);
    var plain := PlainPolicy(QUIET_BOX, DEAR, [], Schedule, [], []);
    DearConfidence(plain);
    DearPasses(RunVerifier(QUIET_BOX, DEAR, [], Schedule), Some(1.0));
    var choice := InitialChoice(QUIET_BOX, false, DEAR, []);
    assert Ask(QUIET_BOX, DEAR_TOOLS, DEAR, [], choice, [], PYTHON) == PolicyResult(true, AllPassed, [], true);
  }

  lemma DearChoice()
    ensures Choice(QUIET_BOX, DEAR) == Schedule && ExpectedAction(QUIET_BOX, DEAR, [], [], false) == Schedule
    ensures OwnerKnown(QUIET_BOX, DEAR)
  {
    hide DetectConflicts, MissingFromEvidence;
    DearFacts();
  }

  /** After a comment the schedule passes again. */
  lemma DearAgain(prior: Decision)
    requires prior.evidence == DEAR && prior.selectedTools == DEAR_TOOLS && prior.preferred == Schedule
    ensures var d := Commented(prior, QUIET_BOX, PYTHON);
            d.preferred == Schedule && d.finalStatus == RecommendationReady
  {
    hide Recalculate, RunVerifier, EvaluatePolicy, CalculateConfidence, GenerateAlternatives, DetectConflicts;
    hide MissingFromEvidence, ItemBySource, PythonEvaluator;
    DearFacts();
    DearChoice();
    var d := Commented(prior, QUIET_BOX, PYTHON);
    assert DEAR + [CONTEXT] == DEAR + Contexts(1) && DEAR + Contexts(0) == DEAR;
    RecalculatedReads(prior, QUIET_BOX, DEAR, 1, prior.executions, PYTHON);
    PythonReads(prior, QUIET_BOX, DEAR, 1, prior.executions, 0.7);
    var findings := RunVerifier(QUIET_BOX, DEAR, [], Schedule);
    DearPasses(findings, None);
    DearConfidence(PlainPolicy(QUIET_BOX, DEAR, [], Schedule, findings, []));
    ProvisionalGrows(QUIET_BOX, DEAR, 0, 1, Schedule, DEAR_TOOLS);
    DearPasses(findings, Some(ProvisionalFor(QUIET_BOX, DEAR, 1, Schedule, DEAR_TOOLS)));
    ReadyWhenPassed(prior, DEAR + Contexts(1), prior.executions);
  }

  const REVOKE := HandleReview(None, Request(RevokeApproval, "reviewer", [], None, false), WorldOf(PYTHON, [], []))

  const COSTLY := [Analyze(AnalysisFor(PRICED, PYTHON)), Approval(PYTHON)]
  const REVOKED := [REVOKE, Comment(PYTHON)]

  lemma CostlyAnalysis()
    ensures var c := NewRun(QUIET_BOX, false);
            && Settles(c.run, Run(c, COSTLY[..1]).run, Some(DearDecision()), PendingHumanReview)
            && Run(c, COSTLY) == Next(Run(c, COSTLY[..1]), COSTLY[1])
  {
    hide BuildDecision, MissingWithUnresolved, Attempt, Next, Run, PythonEvaluator;
    var c := NewRun(QUIET_BOX, false);
    assert AI.Names(DEAR_READS) == DEAR_TOOLS;
    NothingUnresolved();
    AnalysisStep(c, AnalysisFor(PRICED, PYTHON));
    TwoSteps(c, COSTLY[0], COSTLY[1]);
    DearIsScheduled();
  }

  lemma NothingUnresolved()
    ensures MissingWithUnresolved(DEAR, []) == []
  {
    DearFacts();
  }

  /** A schedule's simulated pull request can state negative savings, under the Python policy. */
  lemma PullRequestCanCost()
    ensures FromPlanner(DEAR_PLAN, AnalysisFor(PRICED, PYTHON), UNASSISTED, DEAR_BENCH)
    ensures var run := Run(NewRun(QUIET_BOX, false), COSTLY).run;
            && run.status == PrCreated && run.decision == Some(DearDecision()) && run.resource == QUIET_BOX
            && run.mockPr == Some(MockPr(100, Schedule, -60.0))
  {
    hide Run, AI.PlanResult, BuildDecision, Respectful, PythonEvaluator, RunVerifier, GenerateAlternatives;
    hide DetectConflicts, Attempt, CanApprove, MockPrFor;
    hide Planner.Plans;
    DearIsPlanned();
    DearPlanIsMade();
    assert AI.Names(DEAR_READS) == DEAR_TOOLS;
    var c := NewRun(QUIET_BOX, false);
    CostlyAnalysis();
    DearIsScheduled();
    DearFacts();
    NewRunStarts(QUIET_BOX, false);
    PythonIsRespectful(0.7);
    var s := Run(c, COSTLY[..1]).run;
    var request, world := COSTLY[1].request, COSTLY[1].world;
    ApprovalIsNeverStuck(c, COSTLY[..1], request, world);
    BuildIsCoherent(QUIET_BOX, false, DEAR_TOOLS, DEAR_READS, DEAR, [], PYTHON);
    MockIsDescribed(s, request, world);
    DearMock(world.prNumber);
    ApproveStep(Run(c, COSTLY[..1]));
  }

  /** The simulated pull request an approval opens is the one its decision describes. */
  lemma MockIsDescribed(s: RunState, request: Request, world: World)
    ensures var r := ApproveRun(s, request, world);
            r.Success? && r.value.mockPr.Some? ==>
              s.decision.Some? && r.value.mockPr == MockPrFor(s.decision.value, world.prNumber)
  {
    hide MockPrFor, Log, Repeat, CriticalFailure, IsRemediation;
  }

  lemma DearMock(number: nat)
    requires Coherent(QUIET_BOX, DearDecision())
    ensures MockPrFor(DearDecision(), number) == Some(MockPr(number, Schedule, -60.0))
  {
    hide RunVerifier, BuildDecision, GenerateAlternatives, DetectConflicts, ItemBySource;
    DearIsScheduled();
    DearFacts();
    var d := DearDecision();
    var alternative := FirstWith(d.alternatives, d.preferred, false);
    GeneratedIff(QUIET_BOX, d.evidence, d.missing, d.conflicts, alternative.value);
  }

  lemma ApproveStep(c: Case)
    ensures var r := ApproveRun(c.run, COSTLY[1].request, COSTLY[1].world);
            r.Success? ==>
              Next(c, COSTLY[1]).run == Stored(c.run, r.value) && r.value.decision == c.run.decision
              && r.value.resource == c.run.resource
  {
    hide CanApprove, MockPrFor, Log, Repeat;
  }

  /** That pull request bars every later approval: not even revoking it and commenting anew lets the pending run be
      approved. */
  lemma RevokedPullRequestBars()
    ensures var run := Run(NewRun(QUIET_BOX, false), COSTLY + REVOKED).run;
            run.status == PendingHumanReview && CanApprove(run) == Some(AlreadyHasPr)
  {
    hide Run, Next, BuildDecision, Recalculate, PythonEvaluator, FromPlanner;
    PullRequestCanCost();
    DearIsScheduled();
    var c := NewRun(QUIET_BOX, false);
    var shown := Run(c, COSTLY);
    RunOneMore(c, COSTLY, REVOKE);
    RunOneMore(c, COSTLY + [REVOKE], Comment(PYTHON));
    assert COSTLY + [REVOKE] + [Comment(PYTHON)] == COSTLY + REVOKED;
    RevokeStep(shown);
    var revoked := Run(c, COSTLY + [REVOKE]);
    CommentStep(revoked, PYTHON);
    DearAgain(DearDecision());
  }

  lemma RevokeStep(c: Case)
    requires c.run.status == PrCreated
    ensures Settles(c.run, Next(c, REVOKE).run, c.run.decision, ApprovalRevoked)
  {
  }

  // ----- a comment that blocks a kept change -----

  const UNOWNED := Resource(false, false, true, false)
  const IDLE_BENCH := BENCH.(registered := THIN_TOOLS)
  const IDLE_PLAN := Unassisted(Resizing(UNOWNED, Planner.Unsettled),
    Planner.InvestigationPlan([COST, LOAD, PROJECT, SERVICES], THIN_TOOLS, [GitActivity]))
  const IDLE_READ := AI.PlannerResult(TWO_READS, THIN, [], AI.PlanCompleted)
  const KEPT := [Analyze(AnalysisFor(IDLE_READ, PYTHON)), Comment(PYTHON)]

  lemma IdlePlanIsMade()
    ensures Planner.Plans(IDLE_PLAN.context, IDLE_BENCH.registered, IDLE_PLAN.base)
  {
    hide Planner.DistinctIds;
    QuestionsDiffer();
    assert COST in IDLE_PLAN.base.questions && LOAD in IDLE_PLAN.base.questions;
  }

  lemma IdleIsPlanned()
    ensures AI.PlanResult(UNASSISTED, IDLE_BENCH, UNOWNED, false, THIN_TOOLS) == Some(IDLE_READ)
  {
    AI.CollectedNothing(IDLE_BENCH, 2);
    var last := [Utilization];
    assert THIN_TOOLS[1..] == last && last[1..] == [];
    assert AI.NotIn([], []) == [] && AI.NotIn(last, []) == last && AI.NotIn(THIN_TOOLS, []) == THIN_TOOLS;
    assert AI.Names([]) == [];
    assert AI.Collected(IDLE_BENCH, 1, last) == [IDLE]
           && AI.Recorded(IDLE_BENCH, 1, last) == [Execution(Utilization, true)];
    assert [CHEAPER] + [IDLE] == THIN && ONE_READ + [Execution(Utilization, true)] == TWO_READS;
    assert AI.Collected(IDLE_BENCH, 0, THIN_TOOLS) == THIN && AI.Recorded(IDLE_BENCH, 0, THIN_TOOLS) == TWO_READS;
    assert [] + THIN == THIN && [] + TWO_READS == TWO_READS;
  }

  lemma UnownedFacts()
    ensures ExpectedAction(UNOWNED, THIN, [], [], false) == Downsize && Choice(UNOWNED, THIN) == Downsize
    ensures !OwnerKnown(UNOWNED, THIN)
  {
    hide DetectConflicts, MissingFromEvidence;
    ThinFacts(THIN);
  }

  function KeptDecision(): Decision {
    BuildDecision(UNOWNED, false, THIN_TOOLS, TWO_READS, THIN, [], PYTHON)
  }

  /** Downsizing is denied for want of an owner, so the change is kept. */
  lemma UnownedIsKept()
    ensures var d := KeptDecision();
            d.preferred == Keep && d.policy.allowed && d.finalStatus == KeepAsIs && d.evidence == THIN
  {
    hide RunVerifier, EvaluatePolicy, CalculateConfidence, GenerateAlternatives, DetectConflicts, MissingFromEvidence;
    hide ItemBySource, PythonEvaluator;
    ThinFacts(THIN);
    UnownedFacts();
    BuiltParts(UNOWNED, false, THIN_TOOLS, TWO_READS, THIN, [], PYTHON);
    UnownedIsDenied(InitialChoice(UNOWNED, false, THIN, []));
    KeepIsAllowed();
    hide Ask;
    KeepAnswer(AlternativeFor(UNOWNED, THIN, [], [], Keep));
  }

  lemma UnownedIsDenied(choice: Alternative)
    requires choice.action == Downsize
    ensures !Ask(UNOWNED, THIN_TOOLS, THIN, [], choice, [], PYTHON).allowed
  {
    hide RunVerifier, EvaluatePolicy, CalculateConfidence, DetectConflicts, MissingFromEvidence, ItemBySource;
    hide Defensible;
    ThinFacts(THIN);
    UnownedFacts();
    var provisional := CalculateConfidence(THIN, [], PlainPolicy(UNOWNED, THIN, [], Downsize, [], []), THIN_TOOLS);
    RemediationAllowedIff(UNOWNED, THIN, [], Downsize, [], false, Some(provisional.final), 0.7);
  }

  lemma KeepAnswer(keep: Alternative)
    requires keep.action == Keep
    ensures var policy := Ask(UNOWNED, THIN_TOOLS, THIN, [], keep, RunVerifier(UNOWNED, THIN, [], Keep), PYTHON);
            policy.allowed && policy.status != NeedsContext
  {
    hide RunVerifier, EvaluatePolicy, CalculateConfidence, DetectConflicts, MissingFromEvidence, ItemBySource;
    ThinFacts(THIN);
    UnownedFacts();
    KeepIsAllowed();
    var checked := RunVerifier(UNOWNED, THIN, [], Keep);
    assert KeepPasses(CalculateConfidence(THIN, [], PlainPolicy(UNOWNED, THIN, [], Keep, checked, []),
                                          THIN_TOOLS).final);
  }

  /** Keeping passes the Python policy whatever the confidence. */
  lemma KeepIsAllowed()
    ensures forall confidence: real :: KeepPasses(confidence)
  {
    hide RunVerifier, EvaluatePolicy;
    forall confidence: real ensures KeepPasses(confidence) {
      OtherActionsAllowedIff(UNOWNED, THIN, [], Keep, [], false, Some(confidence), 0.7);
    }
  }

  predicate KeepPasses(confidence: real) {
    var policy := EvaluatePolicy(UNOWNED, THIN, [], Keep, RunVerifier(UNOWNED, THIN, [], Keep), [], false,
                                 Some(confidence), 0.7);
    policy.allowed && policy.status != NeedsContext
  }

  /** The first comment on a run that was kept because its remediation was denied turns it into a blocked one, under the
      Python policy. */
  lemma CommentBlocksKeptRun()
    ensures FromPlanner(IDLE_PLAN, AnalysisFor(IDLE_READ, PYTHON), UNASSISTED, IDLE_BENCH)
    ensures var first := Run(NewRun(UNOWNED, false), KEPT[..1]).run;
            first.status == RunKept && first.decision.Some? && first.decision.value.policy.allowed
    ensures var second := Run(NewRun(UNOWNED, false), KEPT).run;
            && second.status == RunBlocked && second.decision.Some?
            && second.decision.value.preferred == Downsize && !second.decision.value.policy.allowed
  {
    hide AI.PlanResult, BuildDecision, Recalculate, MissingWithUnresolved, Attempt, Next, Run, PythonEvaluator;
    hide Planner.Plans;
    IdleIsPlanned();
    IdlePlanIsMade();
    assert AI.Names(TWO_READS) == THIN_TOOLS;
    NothingUnresolvedThin();
    var c := NewRun(UNOWNED, false);
    UnownedIsKept();
    AnalysisStep(c, AnalysisFor(IDLE_READ, PYTHON));
    TwoSteps(c, KEPT[0], KEPT[1]);
    CommentStep(Next(c, KEPT[0]), PYTHON);
    UnownedIsBlocked(KeptDecision());
  }

  lemma NothingUnresolvedThin()
    ensures MissingWithUnresolved(THIN, []) == []
  {
    ThinFacts(THIN);
  }

  lemma UnownedIsBlocked(prior: Decision)
    requires prior.evidence == THIN
    ensures var d := Commented(prior, UNOWNED, PYTHON);
            d.preferred == Downsize && !d.policy.allowed && d.finalStatus == DecisionBlocked
  {
    hide Recalculate, RunVerifier, CalculateConfidence, GenerateAlternatives, DetectConflicts, MissingFromEvidence;
    hide ItemBySource, PythonEvaluator, Defensible, Blocking;
    ThinFacts(THIN);
    UnownedFacts();
    assert THIN + [CONTEXT] == THIN + Contexts(1);
    RecalculatedReads(prior, UNOWNED, THIN, 1, prior.executions, PYTHON);
    PythonReads(prior, UNOWNED, THIN, 1, prior.executions, 0.7);
    var confidence := ProvisionalFor(UNOWNED, THIN, 1, Downsize, prior.selectedTools);
    RemediationAllowedIff(UNOWNED, THIN, [], Downsize, [], false, Some(confidence), 0.7);
    DeniedIsBlocked(prior, THIN + Contexts(1), prior.executions);
  }

  lemma DeniedIsBlocked(prior: Decision, evidence: seq<Item>, executions: seq<Execution>)
    ensures var d := Recalculate(prior, UNOWNED, evidence, executions, PYTHON);
            d.preferred == Downsize && !d.policy.allowed && d.policy.status != NeedsContext ==>
              d.finalStatus == DecisionBlocked
  {
    hide RunVerifier, EvaluatePolicy, CalculateConfidence, GenerateAlternatives, DetectConflicts, MissingFromEvidence;
    hide ExpectedAction, Ask;
  }

  // ----- a second comment that blocks what the first allowed -----

  const WAVERING := [Analyze(AnalysisFor(NOTHING, PYTHON)), Comment(PYTHON), Comment(PYTHON)]

  function PythonAudit(): Decision {
    BuildDecision(DOOMED, true, [], [], [], [], PYTHON)
  }

  lemma PythonAuditAsks()
    ensures var d := PythonAudit();
            d.preferred == RequestEvidence && d.finalStatus == NeedsHumanContext && d.evidence == []
  {
    hide Ask, RunVerifier, CalculateConfidence, GenerateAlternatives, DetectConflicts;
    BuiltParts(DOOMED, true, [], [], [], [], PYTHON);
    AuditAnswer(InitialChoice(DOOMED, true, [], []));
  }

  lemma AuditAnswer(choice: Alternative)
    requires choice.action == RequestEvidence
    ensures var policy := Ask(DOOMED, [], [], [], choice, [], PYTHON); !policy.allowed && policy.status == NeedsContext
  {
    hide RunVerifier, CalculateConfidence, PlainPolicy, DetectConflicts, EvaluatePolicy, OwnerKnown;
    var conflicts := DetectConflicts([]);
    var plain := PlainPolicy(DOOMED, [], [], RequestEvidence, [], conflicts);
    OtherActionsAllowedIff(DOOMED, [], [], RequestEvidence, conflicts, OwnerKnown(DOOMED, []),
                           Some(CalculateConfidence([], conflicts, plain, []).final), 0.7);
  }

  lemma AuditWavers(d: Decision)
    requires d.preferred == RequestEvidence && d.evidence == []
    ensures Wavers(d, DOOMED) && Choice(DOOMED, []) == Keep && MissingFromEvidence([]) == []
            && DetectConflicts([]) == []
  {
    assert ItemBySource([], Jira).None?;
  }

  lemma WaveringRuns()
    ensures var c := NewRun(DOOMED, true);
            var one, two := Commented(PythonAudit(), DOOMED, PYTHON),
                            Commented(Commented(PythonAudit(), DOOMED, PYTHON), DOOMED, PYTHON);
            && Run(c, WAVERING[..2]).run.decision == Some(one)
            && Run(c, WAVERING[..2]).run.status == MapFinalStatus(one.finalStatus)
            && Run(c, WAVERING).run.decision == Some(two)
            && Run(c, WAVERING).run.status == MapFinalStatus(two.finalStatus)
  {
    hide MissingWithUnresolved, BuildDecision, Commented, Run, Next, PythonEvaluator, Recalculate;
    NothingMissingAtFirst();
    assert AI.Names([]) == [];
    var c := NewRun(DOOMED, true);
    PythonAuditAsks();
    AnalysisStep(c, AnalysisFor(NOTHING, PYTHON));
    ThreeSteps(c, WAVERING[0], WAVERING[1], WAVERING[2]);
    var start := Next(c, WAVERING[0]);
    CommentStep(start, PYTHON);
    CommentStep(Next(start, WAVERING[1]), PYTHON);
  }

  /** In a conflict audit of a deletion, under the Python policy, the first comment keeps the change, which is allowed,
      and the second one blocks it. */
  lemma SecondCommentBlocks(p: PlanOrigin, model: AI.Model, tools: AI.Tools)
    requires p.context.resource == DOOMED && p.context.conflicting && Planner.Plans(p.context, tools.registered, p.base)
    ensures FromPlanner(p, AnalysisFor(NOTHING, PYTHON), model, tools)
    ensures var one, two := Run(NewRun(DOOMED, true), WAVERING[..2]).run, Run(NewRun(DOOMED, true), WAVERING).run;
            && one.decision.Some? && one.decision.value.preferred == Keep && one.decision.value.policy.allowed
            && one.status == RunKept
            && two.decision.Some? && two.decision.value.preferred == Blocked && !two.decision.value.policy.allowed
            && two.status == RunBlocked
  {
    hide FromPlanner, PythonAudit, Commented, Run, PythonEvaluator;
    PrecheckedAudit(p, model, tools);
    PythonAuditAsks();
    WaveringRuns();
    AuditComments(PythonAudit());
  }

  lemma PrecheckedAudit(p: PlanOrigin, model: AI.Model, tools: AI.Tools)
    requires p.context.resource == DOOMED && p.context.conflicting && Planner.Plans(p.context, tools.registered, p.base)
    ensures FromPlanner(p, AnalysisFor(NOTHING, PYTHON), model, tools)
  {
    hide AI.Investigate, AI.Complete, MissingWithUnresolved, ToolsPlanned, Planner.Plans;
    NothingMissingAtFirst();
    assert AI.Names([]) == [];
  }

  /** What two comments make of a decision that asked for evidence without any. */
  lemma AuditComments(d: Decision)
    requires d.preferred == RequestEvidence && d.evidence == []
    ensures var one := Commented(d, DOOMED, PYTHON);
            var two := Commented(one, DOOMED, PYTHON);
            && one.preferred == Keep && one.policy.allowed && one.finalStatus == KeepAsIs
            && two.preferred == Blocked && !two.policy.allowed && two.finalStatus == DecisionBlocked
  {
    hide Commented, PythonEvaluator, Choice, AfterComments, PythonTimes, Wavers;
    AuditWavers(d);
    PythonTwice(d, DOOMED);
    CommentsSettle(d, DOOMED, [PYTHON]);
    CommentsSettle(d, DOOMED, [PYTHON, PYTHON]);
    LaterCommentsBlockIff(d, DOOMED, 2, 0.7);
    KeptOnce(d);
    BlockedStatus(d);
    BlockedStatus(Commented(d, DOOMED, PYTHON));
  }

  lemma ThreeSteps(c: Case, one: Step, two: Step, three: Step)
    ensures [one, two, three][..2] == [one, two]
    ensures Run(c, [one, two]) == Next(Next(c, one), two)
            && Run(c, [one, two, three]) == Next(Next(Next(c, one), two), three)
  {
    hide Next;
    TwoSteps(c, one, two);
    RunOneMore(c, [one, two], three);
    assert [one, two] + [three] == [one, two, three];
  }

  lemma PythonTwice(d: Decision, resource: Resource)
    ensures PythonTimes(0.7, 1) == [PYTHON] && PythonTimes(0.7, 2) == [PYTHON, PYTHON]
    ensures AfterComments(d, resource, [PYTHON]) == Commented(d, resource, PYTHON)
    ensures AfterComments(d, resource, [PYTHON, PYTHON]) == Commented(Commented(d, resource, PYTHON), resource, PYTHON)
  {
    hide Commented;
    assert [PYTHON][..0] == [] && [PYTHON, PYTHON][..1] == [PYTHON];
  }

  lemma KeptOnce(d: Decision)
    requires d.preferred == RequestEvidence && d.evidence == []
    ensures AfterComments(d, DOOMED, PythonTimes(0.7, 1)).policy.allowed
  {
    hide AfterComments, PythonAnswer, ProvisionalFor, PythonTimes;
    AuditWavers(d);
    PythonCommentsRead(d, DOOMED, 1, 0.7);
    CommentsAllowedIff(d, DOOMED, 1, 0.7);
  }

  lemma BlockedStatus(prior: Decision)
    ensures var d := Commented(prior, DOOMED, PYTHON);
            && (d.preferred == Blocked ==> d.finalStatus == DecisionBlocked)
            && (d.preferred == Keep && d.policy.allowed ==> d.finalStatus == KeepAsIs)
  {
    hide Recalculate;
    StatusOfRevised(prior, prior.evidence + [CONTEXT], prior.executions);
  }

  lemma StatusOfRevised(prior: Decision, evidence: seq<Item>, executions: seq<Execution>)
    ensures var d := Recalculate(prior, DOOMED, evidence, executions, PYTHON);
            && (d.preferred == Blocked ==> d.finalStatus == DecisionBlocked)
            && (d.preferred == Keep && d.policy.allowed ==> d.finalStatus == KeepAsIs)
  {
    hide RunVerifier, CalculateConfidence, PlainPolicy, GenerateAlternatives, DetectConflicts, MissingFromEvidence;
    hide ExpectedAction, Ask;
  }

  // ----- a first comment that blocks what an evidence request allowed -----

  const JIRA_READ := [Execution(Jira, true)]

  /** Jira answers, with nothing. */
  const ASK_IN_VAIN := HandleReview(None, Request(AskEvidence, "reviewer", [Jira], None, false),
                                    WorldOf(PYTHON, [], JIRA_READ))

  const IN_VAIN := [Analyze(AnalysisFor(NOTHING, PYTHON)), ASK_IN_VAIN, Comment(PYTHON)]

  function AskedInVain(): Decision {
    Recalculate(PythonAudit(), DOOMED, [], JIRA_READ, PYTHON)
  }

  lemma InVainKeeps()
    ensures var asked := AskedInVain();
            && asked.preferred == Keep && asked.policy.allowed && asked.finalStatus == KeepAsIs
            && asked.evidence == [] && asked.executions == JIRA_READ
    ensures var commented := Commented(AskedInVain(), DOOMED, PYTHON);
            commented.preferred == Blocked && !commented.policy.allowed && commented.finalStatus == DecisionBlocked
  {
    hide PythonAudit, Recalculate, PythonEvaluator, Choice, AfterComments, ProvisionalFor, Commented, PythonTimes;
    PythonAuditAsks();
    var d, asked := PythonAudit(), AskedInVain();
    AuditWavers(d);
    RecalculationAllowedIff(d, DOOMED, [], JIRA_READ, 0.7);
    RecalculatedCarries(d, DOOMED, [], JIRA_READ, PYTHON);
    CommentsDenyRecalculatedIff(d, DOOMED, [], JIRA_READ, 1, 0.7);
    PythonTwice(asked, DOOMED);
    CommentsSettle(asked, DOOMED, [PYTHON]);
    StatusOfRevised(d, [], JIRA_READ);
    BlockedStatus(asked);
  }

  lemma AskInVainStep(c: Case)
    requires c.run.status == NeedsMoreEvidence && c.run.decision == Some(PythonAudit()) && c.run.resource == DOOMED
    ensures Settles(c.run, Next(c, ASK_IN_VAIN).run, Some(AskedInVain()), MapFinalStatus(AskedInVain().finalStatus))
  {
    hide Recalculate, Repeat, PolicyKinds, BuildDecision, PythonEvaluator, Without;
    PythonAuditAsks();
    assert Without([], [Jira]) + [] == [] by { NothingWithout(); }
    assert PythonAudit().executions + JIRA_READ == JIRA_READ by { AuditExecutions(); }
  }

  lemma NothingWithout()
    ensures Without([], [Jira]) == []
  {
  }

  lemma AuditExecutions()
    ensures PythonAudit().executions == []
  {
    hide Ask;
    BuiltParts(DOOMED, true, [], [], [], [], PYTHON);
  }

  /** In a conflict audit of a deletion, under the Python policy, an evidence request that brings nothing leaves the
      change to be kept, which is allowed, and the first comment after it blocks the change. */
  lemma CommentBlocksAfterRequest(p: PlanOrigin, model: AI.Model, tools: AI.Tools)
    requires p.context.resource == DOOMED && p.context.conflicting && Planner.Plans(p.context, tools.registered, p.base)
    ensures FromPlanner(p, AnalysisFor(NOTHING, PYTHON), model, tools)
    ensures var asked, last := Run(NewRun(DOOMED, true), IN_VAIN[..2]).run, Run(NewRun(DOOMED, true), IN_VAIN).run;
            && asked.decision.Some? && asked.decision.value.preferred == Keep && asked.decision.value.policy.allowed
            && asked.status == RunKept
            && last.decision.Some? && last.decision.value.preferred == Blocked && !last.decision.value.policy.allowed
            && last.status == RunBlocked
  {
    hide FromPlanner, PythonAudit, Commented, Run, Next, PythonEvaluator, AskedInVain, Planner.Plans, BuildDecision;
    PrecheckedAudit(p, model, tools);
    PythonAuditAsks();
    InVainKeeps();
    var c := NewRun(DOOMED, true);
    InVainAnalysis(c);
    ThreeSteps(c, IN_VAIN[0], IN_VAIN[1], IN_VAIN[2]);
    AskInVainStep(Next(c, IN_VAIN[0]));
    CommentStep(Next(Next(c, IN_VAIN[0]), IN_VAIN[1]), PYTHON);
  }

  lemma InVainAnalysis(c: Case)
    requires c == NewRun(DOOMED, true)
    ensures Settles(c.run, Next(c, IN_VAIN[0]).run, Some(PythonAudit()), NeedsMoreEvidence)
  {
    hide BuildDecision, MissingWithUnresolved, Next, PythonEvaluator;
    NothingMissingAtFirst();
    assert AI.Names([]) == [];
    PythonAuditAsks();
    AnalysisStep(c, AnalysisFor(NOTHING, PYTHON));
  }

  // ----- a comment that undoes a modification -----

  const BUSY := Item(Utilization, Fresh, 1.0, Some(NO_FACTS.(averageCpu := Some(50.0), peakCpu := Some(80.0))))
  const RESTING := Item(Jira, Fresh, 1.0, Some(NO_FACTS.(status := Some(Inactive))))
  const TORN := [BUSY, RESTING]
  const TORN_TOOLS := [Utilization, Jira]
  const TORN_READS := [Execution(Utilization, true), Execution(Jira, true)]
  const TORN_CONFLICTS := [Conflict(JiraIdleHighLoad, High)]
  const TORN_BENCH := AI.Tools(TORN_TOOLS,
                               (call: nat, tool: Source) => AI.Returned(if tool == Jira then [RESTING] else [BUSY]),
                               evidence => [])
  const TORN_PLAN := Unassisted(Resizing(QUIET_BOX, Planner.SettledOtherwise),
    Planner.InvestigationPlan([COST, LOAD, PROJECT, COMMITS, SERVICES], TORN_TOOLS, []))
  const TORN_READ := AI.PlannerResult(TORN_READS, TORN, [], AI.PlanCompleted)

  const RESCHEDULE := HandleReview(None, Request(Modify, "reviewer", [], Some(Schedule), false),
                                   WorldOf(PYTHON, [], []))
  const RESCHEDULED := [Analyze(AnalysisFor(TORN_READ, PYTHON)), RESCHEDULE, Comment(PYTHON)]

  lemma TornIsPlanned()
    ensures FromPlanner(TORN_PLAN, AnalysisFor(TORN_READ, PYTHON), UNASSISTED, TORN_BENCH)
  {
    hide Planner.Plans, MissingWithUnresolved, AI.PlanResult;
    TornPlanIsMade();
    TornIsRead();
  }

  lemma TornPlanIsMade()
    ensures Planner.Plans(TORN_PLAN.context, TORN_BENCH.registered, TORN_PLAN.base)
  {
    hide Planner.DistinctIds;
    QuestionsDiffer();
    assert LOAD in TORN_PLAN.base.questions && PROJECT in TORN_PLAN.base.questions;
  }

  lemma TornIsRead()
    ensures AI.PlanResult(UNASSISTED, TORN_BENCH, QUIET_BOX, false, TORN_TOOLS) == Some(TORN_READ)
  {
    hide AI.NotIn;
    var last := [Jira];
    AI.CollectedNothing(TORN_BENCH, 2);
    assert TORN_TOOLS == [Utilization] + last && last == [Jira] + [] && TORN_TOOLS[1..] == last && last[1..] == [];
    FirstOf(Jira, [], []);
    FirstOf(Utilization, last, []);
    assert AI.Names([]) == [];
    assert AI.Collected(TORN_BENCH, 1, last) == [RESTING]
           && AI.Recorded(TORN_BENCH, 1, last) == [Execution(Jira, true)];
    assert [BUSY] + [RESTING] == TORN && [Execution(Utilization, true)] + [Execution(Jira, true)] == TORN_READS;
    assert AI.Collected(TORN_BENCH, 0, TORN_TOOLS) == TORN && AI.Recorded(TORN_BENCH, 0, TORN_TOOLS) == TORN_READS;
    assert [] + TORN == TORN && [] + TORN_READS == TORN_READS;
  }

  lemma TornFacts()
    ensures DetectConflicts(TORN) == TORN_CONFLICTS && MissingFromEvidence(TORN) == []
    ensures MissingWithUnresolved(TORN, []) == []
    ensures ScheduleFacts(QUIET_BOX, TORN) && OwnerKnown(QUIET_BOX, TORN)
  {
    NothingMissing(TORN);
    assert TORN[1..] == [RESTING];
  }

  lemma TornMeans()
    ensures Mean(ReliabilityValues(TORN)) == 1.0 && Mean(FreshnessValues(TORN)) == 1.0
    ensures Completeness(TORN, TORN_TOOLS) == 1.0
  {
    assert [] + [BUSY] == [BUSY] && [BUSY] + [RESTING] == TORN;
    ValuesOfAppend([], BUSY);
    ValuesOfAppend([BUSY], RESTING);
    SumAppend([1.0], 1.0);
    hide Mean, ReliabilityValues, FreshnessValues;
    var wanted := set s <- TORN_TOOLS;
    assert BUSY in TORN && RESTING in TORN;
    assert wanted == {Utilization, Jira} == AvailableSources(TORN) * wanted;
  }

  lemma TornConfidence()
    ensures CalculateConfidence(TORN, TORN_CONFLICTS, PolicyResult(true, AllPassed, [], true), TORN_TOOLS).final == 0.75
  {
    hide Mean, ReliabilityValues, FreshnessValues, Completeness;
    TornMeans();
    assert Penalty(TORN_CONFLICTS) == 0.25 + Penalty([]);
  }

  function TornDecision(): Decision {
    FirstDecision(QUIET_BOX, false, TORN_TOOLS, TORN_READS, TORN, [], PYTHON)
  }

  const TO_SCHEDULE := Proposal(Schedule, QUIET_BOX, TORN, [], TORN_CONFLICTS)

  lemma TornParts()
    ensures var d := TornDecision();
            && d.evidence == TORN && d.missing == [] && d.conflicts == TORN_CONFLICTS && d.selectedTools == TORN_TOOLS
            && d.alternatives == GenerateAlternatives(QUIET_BOX, TORN, [], TORN_CONFLICTS)
            && d.finalStatus == StatusOf(d.preferred, d.policy) && Coherent(QUIET_BOX, d)
  {
    hide BuildDecision, RunVerifier, GenerateAlternatives, DetectConflicts, MissingWithUnresolved, FirstWith, StatusOf;
    hide ScheduleFacts;
    TornFacts();
    BuiltParts(QUIET_BOX, false, TORN_TOOLS, TORN_READS, TORN, [], PYTHON);
    BuildIsCoherent(QUIET_BOX, false, TORN_TOOLS, TORN_READS, TORN, [], PYTHON);
  }

  lemma TornChoice()
    ensures FirstChoice(QUIET_BOX, false, TORN, []).action == RequestEvidence
  {
    hide GenerateAlternatives, DetectConflicts, MissingWithUnresolved, ScheduleFacts, MayAbstain, DownsizeFacts;
    TornFacts();
    assert UnresolvedContextConflict(TORN_CONFLICTS) by { assert TORN_CONFLICTS[0] in TORN_CONFLICTS; }
  }

  lemma ScheduleIsOffered()
    ensures var alternatives := GenerateAlternatives(QUIET_BOX, TORN, [], TORN_CONFLICTS);
            && TO_SCHEDULE in alternatives && TO_SCHEDULE.Eligible()
            && FirstWith(alternatives, Schedule, false) == Some(TO_SCHEDULE)
  {
    hide GenerateAlternatives, Rejections, Savings, ScheduleFacts, DetectConflicts;
    TornFacts();
    GeneratedIff(QUIET_BOX, TORN, [], TORN_CONFLICTS, TO_SCHEDULE);
    EligibleIff(Schedule, QUIET_BOX, TORN, [], TORN_CONFLICTS);
    var found := FirstWith(GenerateAlternatives(QUIET_BOX, TORN, [], TORN_CONFLICTS), Schedule, false);
    GeneratedIff(QUIET_BOX, TORN, [], TORN_CONFLICTS, found.value);
  }

  /** An inactive project on a busy machine: evidence is asked for. */
  lemma TornAsks()
    ensures TornDecision().preferred == RequestEvidence && TornDecision().finalStatus == NeedsHumanContext
  {
    hide FirstDecision, FirstChoice, Ask, RunVerifier, GenerateAlternatives, DetectConflicts, MissingWithUnresolved;
    hide Coherent, ScheduleFacts, PythonEvaluator, MissingFromEvidence;
    TornFacts();
    TornParts();
    TornChoice();
    FirstDecisionFacts(QUIET_BOX, false, TORN_TOOLS, TORN_READS, TORN, [], PYTHON);
    FirstPolicy(QUIET_BOX, false, TORN_TOOLS, TORN_READS, TORN, [], PYTHON);
    TornAnswer(FirstChoice(QUIET_BOX, false, TORN, []));
  }

  lemma TornAnswer(choice: Alternative)
    requires choice.action == RequestEvidence
    ensures var policy := Ask(QUIET_BOX, TORN_TOOLS, TORN, [], choice, [], PYTHON);
            !policy.allowed && policy.status == NeedsContext
  {
    hide RunVerifier, EvaluatePolicy, DetectConflicts, Ask, PythonEvaluator;
    var confidence := PythonAsked(QUIET_BOX, TORN, [], choice, TORN_TOOLS, [], 0.7);
    OtherActionsAllowedIff(QUIET_BOX, TORN, [], RequestEvidence, DetectConflicts(TORN), OwnerKnown(QUIET_BOX, TORN),
                           Some(confidence), 0.7);
  }

  /** Scheduling passes, in spite of the conflict. */
  lemma TornMayBeScheduled(d: Decision)
    requires d.evidence == TORN && d.missing == [] && d.conflicts == TORN_CONFLICTS && d.selectedTools == TORN_TOOLS
    ensures Modified(d, QUIET_BOX, TO_SCHEDULE, PYTHON).policy.allowed
  {
    hide RunVerifier, EvaluatePolicy, DetectConflicts, CalculateConfidence, PlainPolicy;
    TornFacts();
    NothingFails();
    TornConfidence();
    assert forall c <- TORN_CONFLICTS :: c == TORN_CONFLICTS[0];
    PlainPasses(QUIET_BOX, TORN, [], Schedule, TORN_CONFLICTS);
    RemediationAllowedIff(QUIET_BOX, TORN, [], Schedule, TORN_CONFLICTS, OwnerKnown(QUIET_BOX, TORN), Some(0.75), 0.7);
  }

  lemma RescheduleStep(c: Case)
    requires c.run.status == NeedsMoreEvidence && c.run.decision.Some? && c.run.resource == QUIET_BOX
    requires FirstWith(c.run.decision.value.alternatives, Schedule, false) == Some(TO_SCHEDULE)
             && TO_SCHEDULE.Eligible()
    requires Modified(c.run.decision.value, QUIET_BOX, TO_SCHEDULE, PYTHON).policy.allowed
    ensures Settles(c.run, Next(c, RESCHEDULE).run,
                    Some(Modified(c.run.decision.value, QUIET_BOX, TO_SCHEDULE, PYTHON)),
                    PendingHumanReview)
  {
    hide Modified, Rejections, FirstWith, Repeat, PolicyKinds, PythonEvaluator;
  }

  lemma TornAgain(d: Decision)
    requires d == TornDecision()
    ensures var changed := Modified(d, QUIET_BOX, TO_SCHEDULE, PYTHON);
            var after := Commented(changed, QUIET_BOX, PYTHON);
            && changed.policy.allowed && changed.preferred == Schedule
            && !after.policy.allowed && after.preferred == RequestEvidence
  {
    hide TornDecision, Modified, Commented, AfterComments, PythonTimes, Coherent, Choice, DownsizeFacts;
    hide GenerateAlternatives, RunVerifier, DetectConflicts, MissingFromEvidence, PythonEvaluator, Rejections;
    TornAsks();
    TornParts();
    ScheduleIsOffered();
    TornFacts();
    TornMayBeScheduled(d);
    var changed := Modified(d, QUIET_BOX, TO_SCHEDULE, PYTHON);
    assert UnresolvedContextConflict(TORN_CONFLICTS) by { assert TORN_CONFLICTS[0] in TORN_CONFLICTS; }
    NothingFails();
    CommentsDenyModifiedIff(d, QUIET_BOX, TO_SCHEDULE, 1, 0.7);
    ModifiedKeeps(d, QUIET_BOX, TO_SCHEDULE, PYTHON);
    PythonTwice(changed, QUIET_BOX);
    CommentsSettle(changed, QUIET_BOX, [PYTHON]);
    ChoiceAsksIff(QUIET_BOX, TORN);
  }

  /** A reviewer may change a request for evidence into a schedule that the Python policy allows; the next comment asks
      for the evidence again, and denies the schedule. */
  lemma CommentUndoesModification()
    ensures FromPlanner(TORN_PLAN, AnalysisFor(TORN_READ, PYTHON), UNASSISTED, TORN_BENCH)
    ensures var changed, last := Run(NewRun(QUIET_BOX, false), RESCHEDULED[..2]).run,
                                 Run(NewRun(QUIET_BOX, false), RESCHEDULED).run;
            && changed.status == PendingHumanReview && changed.decision.Some?
            && changed.decision.value.preferred == Schedule && changed.decision.value.policy.allowed
            && last.decision.Some? && last.decision.value.preferred == RequestEvidence
            && !last.decision.value.policy.allowed
  {
    hide FromPlanner, TornDecision, Commented, Modified, Run, Next, PythonEvaluator, FirstWith;
    hide GenerateAlternatives, Coherent, Rejections;
    TornIsPlanned();
    TornParts();
    ScheduleIsOffered();
    TornAgain(TornDecision());
    var c := NewRun(QUIET_BOX, false);
    TornAnalysis(c);
    ThreeSteps(c, RESCHEDULED[0], RESCHEDULED[1], RESCHEDULED[2]);
    RescheduleStep(Next(c, RESCHEDULED[0]));
    CommentStep(Next(Next(c, RESCHEDULED[0]), RESCHEDULED[1]), PYTHON);
  }

  lemma TornAnalysis(c: Case)
    requires c == NewRun(QUIET_BOX, false)
    ensures Settles(c.run, Next(c, RESCHEDULED[0]).run, Some(TornDecision()), NeedsMoreEvidence)
  {
    hide BuildDecision, MissingWithUnresolved, Next, PythonEvaluator, DetectConflicts, MissingFromEvidence;
    hide ScheduleFacts, OwnerKnown;
    TornFacts();
    TornAsks();
    assert AI.Names(TORN_READS) == TORN_TOOLS;
    AnalysisStep(c, AnalysisFor(TORN_READ, PYTHON));
  }
}
