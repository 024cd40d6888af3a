/** The bounded AI investigation loop, its validator and its deterministic completion
    (core/ai_planner.py, core/ai_plan_validator.py, core/investigator.py). */
module AIPlanner {
  import opened Wrappers
  import opened Evidence
  import opened ReasoningEngine
  import AlternativeGenerator

  /** A proposal from the model: `unsafeText` says whether any of its texts names a prohibited operation,
      `clearQuestion` whether its human question has at least twelve characters. */
  datatype AgentAction =
    | CallTool(unsafeText: bool, tool: Option<Source>)
    | AskHuman(unsafeText: bool, clearQuestion: bool)
    | Finish(unsafeText: bool)
    | ProposeAbstaining(unsafeText: bool)

  /** What one call to the model does; `ReplyRaises` is any exception other than `AIClientError`. */
  datatype Reply = Proposed(action: AgentAction) | ClientError | ReplyRaises

  datatype Interpretation = Interpreted(refresh: bool) | NotInterpreted

  datatype Outcome = Returned(items: seq<Item>) | CallFailed

  /** The tools' side: what the n-th tool call answers, and which questions evidence leaves open. */
  datatype Tools = Tools(registered: seq<Source>, respond: (nat, Source) -> Outcome,
                         openQuestions: seq<Item> -> seq<Source>)

  /** The model's side. Replies indexed by step cover every adaptive model: whatever strategy it follows, it gives some
      reply at each step. */
  datatype Model = Model(enabled: bool, present: bool, maximumSteps: int, interpretation: Interpretation,
                         reply: nat -> Reply)

  datatype Termination = HardPrecheck | PlanCompleted | HumanContextRequested | AiAbstained | AiFinished

  datatype PlannerResult = PlannerResult(executions: seq<Execution>, evidence: seq<Item>, unresolved: seq<Source>,
                                         termination: Termination)

  const BUSINESS_CONTEXT := Other("business_context")

  function Names(executions: seq<Execution>): (r: seq<Source>)
    ensures |r| == |executions| && forall i | 0 <= i < |r| :: r[i] == executions[i].tool
  {
    seq(|executions|, i requires 0 <= i < |executions| => executions[i].tool)
  }

  /** `list(dict.fromkeys(...))`. */
  function Distinct(tools: seq<Source>): (r: seq<Source>)
    ensures forall t :: t in r <==> t in tools
  {
    if tools == [] then []
    else
      var kept := Distinct(tools[..|tools| - 1]);
      var last := tools[|tools| - 1];
      assert tools == tools[..|tools| - 1] + [last];
      if last in kept then kept else kept + [last]
  }

  function NotIn(tools: seq<Source>, done: seq<Source>): (r: seq<Source>)
    ensures forall t :: t in r <==> t in tools && t !in done
  {
    if tools == [] then []
    else if tools[0] in done then NotIn(tools[1..], done)
    else [tools[0]] + NotIn(tools[1..], done)
  }

  // ----- collecting evidence (core/investigator.py) -----

  function CallOutcome(tools: Tools, call: nat, tool: Source): Outcome {
    if tool in tools.registered then tools.respond(call, tool) else CallFailed
  }

  function ItemsOf(outcome: Outcome, tool: Source): seq<Item> {
    match outcome
    case Returned(items) => items
    case CallFailed => [Item(tool, Unavailable, 0.0, None)]
  }

  function Collected(tools: Tools, call: nat, names: seq<Source>): seq<Item>
    decreases names
  {
    if names == [] then []
    else ItemsOf(CallOutcome(tools, call, names[0]), names[0]) + Collected(tools, call + 1, names[1..])
  }

  function Recorded(tools: Tools, call: nat, names: seq<Source>): (r: seq<Execution>)
    ensures Names(r) == names
    decreases names
  {
    if names == [] then []
    else [Execution(names[0], CallOutcome(tools, call, names[0]).Returned?)] + Recorded(tools, call + 1, names[1..])
  }

  lemma {:induction false} CollectOneMore(tools: Tools, call: nat, names: seq<Source>, last: Source)
    ensures Collected(tools, call, names + [last])
         == Collected(tools, call, names) + ItemsOf(CallOutcome(tools, call + |names|, last), last)
    ensures Recorded(tools, call, names + [last])
         == Recorded(tools, call, names) + [Execution(last, CallOutcome(tools, call + |names|, last).Returned?)]
    decreases names
  {
    hide ItemsOf, CallOutcome, Names;
    if names == [] {
      assert names + [last] == [last];
      CollectedNothing(tools, call + 1);
    } else {
      assert (names + [last])[1..] == names[1..] + [last] && (names + [last])[0] == names[0];
      CollectOneMore(tools, call + 1, names[1..], last);
    }
  }

  /** One record per selected tool; a failed or unregistered tool leaves one unavailable item under its own name. */
  method CollectEvidence(tools: Tools, call: nat,
                         names: seq<Source>) returns (evidence: seq<Item>, records: seq<Execution>)
    ensures evidence == Collected(tools, call, names) && records == Recorded(tools, call, names)
  {
    hide Collected, Recorded, ItemsOf, CallOutcome, Names;
    evidence, records := [], [];
    CollectedNothing(tools, call);
    for i := 0 to |names|
      invariant evidence == Collected(tools, call, names[..i])
      invariant records == Recorded(tools, call, names[..i])
    {
      var outcome := CallOutcome(tools, call + i, names[i]);
      CollectOneMore(tools, call, names[..i], names[i]);
      assert names[..i] + [names[i]] == names[..i + 1];
      evidence := evidence + ItemsOf(outcome, names[i]);
      records := records + [Execution(names[i], outcome.Returned?)];
    }
    assert names[..|names|] == names;
  }

  lemma CollectedNothing(tools: Tools, call: nat)
    ensures Collected(tools, call, []) == [] && Recorded(tools, call, []) == []
  {
  }

  // ----- the validator (core/ai_plan_validator.py) -----

  predicate Accepts(action: AgentAction, registered: seq<Source>, executed: seq<Source>, evidence: seq<Item>,
                    refresh: bool,
                    mandatory: seq<Source>, unresolved: seq<Source>) {
    && !action.unsafeText
    && match action
       case CallTool(_, tool) =>
         && tool.Some? && tool.value in registered
         && (tool.value in executed ==>
               refresh || exists e <- evidence :: e.source == tool.value && e.freshness == Unavailable)
       case Finish(_) => forall t <- mandatory :: t in executed
       case AskHuman(_, clear) => clear && (unresolved != [] || evidence != [])
       case ProposeAbstaining(_) => unresolved != [] || evidence != []
  }

  // ----- the loop -----

  /** `_deterministic_result` outside the hard precheck: run what is left of the plan. */
  function Complete(tools: Tools, planned: seq<Source>, executions: seq<Execution>,
                    evidence: seq<Item>): PlannerResult {
    var remaining := NotIn(planned, Names(executions));
    var all := evidence + Collected(tools, |executions|, remaining);
    PlannerResult(executions + Recorded(tools, |executions|, remaining), all, tools.openQuestions(all), PlanCompleted)
  }

  function UnresolvedAt(conflicting: bool, mandatory: seq<Source>, executions: seq<Execution>): seq<Source> {
    var open := NotIn(mandatory, Names(executions));
    if conflicting && BUSINESS_CONTEXT !in open then open + [BUSINESS_CONTEXT] else open
  }

  function Steps(model: Model): nat {
    if model.maximumSteps < 1 then 1 else model.maximumSteps
  }

  function Investigate(model: Model, tools: Tools, conflicting: bool, planned: seq<Source>, step: nat,
                       executions: seq<Execution>, evidence: seq<Item>): Option<PlannerResult>
    requires model.interpretation.Interpreted? && step <= Steps(model)
    decreases Steps(model) - step
  {
    if step == Steps(model) then Some(Complete(tools, planned, executions, evidence))
    else
      var mandatory := Distinct(planned);
      var unresolved := UnresolvedAt(conflicting, mandatory, executions);
      match model.reply(step)
      case ReplyRaises => None
      case ClientError => Some(Complete(tools, planned, executions, evidence))
      case Proposed(action) =>
        if !Accepts(action, tools.registered, Names(executions), evidence, model.interpretation.refresh, mandatory,
                    unresolved) then
          Some(Complete(tools, planned, executions, evidence))
        else
          match action
          case CallTool(_, tool) =>
            Investigate(model, tools, conflicting, planned, step + 1,
                        executions + Recorded(tools, |executions|, [tool.value]),
                        evidence + Collected(tools, |executions|, [tool.value]))
          case AskHuman(_, _) =>
            Some(PlannerResult(executions, evidence, NotIn(mandatory, Names(executions)), HumanContextRequested))
          case ProposeAbstaining(_) => Some(PlannerResult(executions, evidence, unresolved, AiAbstained))
          case Finish(_) => Some(PlannerResult(executions, evidence, unresolved, AiFinished))
  }

  /** `AIPlanner.plan`; `None` when the model's client raises something the loop does not catch. */
  function PlanResult(model: Model, tools: Tools, resource: Resource, conflicting: bool,
                      planned: seq<Source>): Option<PlannerResult> {
    if resource.destructive || resource.production then Some(PlannerResult([], [], [], HardPrecheck))
    else if !model.enabled || !model.present || model.interpretation.NotInterpreted? then
      Some(Complete(tools, planned, [], []))
    else Investigate(model, tools, conflicting, planned, 0, [], [])
  }

  method DeterministicResult(tools: Tools, planned: seq<Source>, executions: seq<Execution>,
                             evidence: seq<Item>) returns (r: PlannerResult)
    ensures r == Complete(tools, planned, executions, evidence)
  {
    var more, records := CollectEvidence(tools, |executions|, NotIn(planned, Names(executions)));
    r := PlannerResult(executions + records, evidence + more, tools.openQuestions(evidence + more), PlanCompleted);
  }

  method Plan(model: Model, tools: Tools, resource: Resource, conflicting: bool,
              planned: seq<Source>) returns (r: Option<PlannerResult>)
    ensures r == PlanResult(model, tools, resource, conflicting, planned)
  {
    if resource.destructive || resource.production { return Some(PlannerResult([], [], [], HardPrecheck)); }
    if !model.enabled || !model.present || model.interpretation.NotInterpreted? {
      var done := DeterministicResult(tools, planned, [], []);
      return Some(done);
    }
    var executions: seq<Execution>, evidence: seq<Item> := [], [];
    var mandatory := Distinct(planned);
    for step := 0 to Steps(model)
      invariant Investigate(model, tools, conflicting, planned, step, executions, evidence)
             == Investigate(model, tools, conflicting, planned, 0, [], [])
    {
      var unresolved := UnresolvedAt(conflicting, mandatory, executions);
      var reply := model.reply(step);
      if reply.ReplyRaises? { return None; }
      if reply.ClientError? ||
         !Accepts(reply.action, tools.registered, Names(executions), evidence, model.interpretation.refresh, mandatory,
                  unresolved) {
        var done := DeterministicResult(tools, planned, executions, evidence);
        return Some(done);
      }
      match reply.action {
        case CallTool(_, tool) =>
          var more, records := CollectEvidence(tools, |executions|, [tool.value]);
          executions, evidence := executions + records, evidence + more;
        case AskHuman(_, _) =>
          return Some(PlannerResult(executions, evidence, NotIn(mandatory, Names(executions)), HumanContextRequested));
        case ProposeAbstaining(_) => return Some(PlannerResult(executions, evidence, unresolved, AiAbstained));
        case Finish(_) => return Some(PlannerResult(executions, evidence, unresolved, AiFinished));
      }
    }
    var done := DeterministicResult(tools, planned, executions, evidence);
    return Some(done);
  }

  // ----- coverage -----

  /** Each planned tool was executed or is named unresolved. */
  predicate Covers(planned: seq<Source>, r: PlannerResult) {
    forall t <- planned :: t in Names(r.executions) || t in r.unresolved
  }

  lemma NamesAppend(a: seq<Execution>, b: seq<Execution>)
    ensures Names(a + b) == Names(a) + Names(b)
  {
  }

  lemma CompleteCovers(tools: Tools, planned: seq<Source>, executions: seq<Execution>, evidence: seq<Item>)
    ensures forall t <- planned :: t in Names(Complete(tools, planned, executions, evidence).executions)
  {
    var remaining := NotIn(planned, Names(executions));
    NamesAppend(executions, Recorded(tools, |executions|, remaining));
  }

  lemma {:induction false} InvestigateCovers(model: Model, tools: Tools, conflicting: bool, planned: seq<Source>,
                                             step: nat,
                                             executions: seq<Execution>, evidence: seq<Item>)
    requires model.interpretation.Interpreted? && step <= Steps(model)
    ensures var r := Investigate(model, tools, conflicting, planned, step, executions, evidence);
            r.Some? ==> Covers(planned, r.value)
    decreases Steps(model) - step
  {
    CompleteCovers(tools, planned, executions, evidence);
    if step < Steps(model) && model.reply(step).Proposed? && model.reply(step).action.CallTool?
       && model.reply(step).action.tool.Some? {
      var tool := model.reply(step).action.tool.value;
      InvestigateCovers(model, tools, conflicting, planned, step + 1,
                        executions + Recorded(tools, |executions|, [tool]),
                        evidence + Collected(tools, |executions|, [tool]));
    }
  }

  /** Whatever the model answers, off the hard precheck every planned tool is executed or named unresolved, and a finish
      accepted from the model leaves no planned tool out. */
  lemma PlanCovers(model: Model, tools: Tools, resource: Resource, conflicting: bool, planned: seq<Source>)
    ensures var r := PlanResult(model, tools, resource, conflicting, planned);
            r.Some? ==>
              && (r.value.termination == HardPrecheck <==> resource.destructive || resource.production)
              && (r.value.termination != HardPrecheck ==> Covers(planned, r.value))
              && (r.value.termination == HardPrecheck ==> r.value.executions == [])
  {
    CompleteCovers(tools, planned, [], []);
    if !(resource.destructive || resource.production) && model.enabled && model.present
       && model.interpretation.Interpreted? {
      InvestigateCovers(model, tools, conflicting, planned, 0, [], []);
      NeverPrecheck(model, tools, conflicting, planned, 0, [], []);
    }
  }

  lemma {:induction false} NeverPrecheck(model: Model, tools: Tools, conflicting: bool, planned: seq<Source>, step: nat,
                                         executions: seq<Execution>, evidence: seq<Item>)
    requires model.interpretation.Interpreted? && step <= Steps(model)
    ensures var r := Investigate(model, tools, conflicting, planned, step, executions, evidence);
            r.Some? ==>
              && r.value.termination != HardPrecheck
              && (r.value.termination == AiFinished ==> forall t <- planned :: t in Names(r.value.executions))
    decreases Steps(model) - step
  {
    if step < Steps(model) && model.reply(step).Proposed? && model.reply(step).action.CallTool?
       && model.reply(step).action.tool.Some? {
      var tool := model.reply(step).action.tool.value;
      NeverPrecheck(model, tools, conflicting, planned, step + 1,
                    executions + Recorded(tools, |executions|, [tool]),
                    evidence + Collected(tools, |executions|, [tool]));
    }
  }

  // ----- what the evidence proves about execution -----

  /** No tool reports evidence under the name of a critical tool other than itself. */
  ghost predicate NoImpersonation(tools: Tools) {
    forall call: nat, tool, e ::
      tools.respond(call, tool).Returned? && e in tools.respond(call, tool).items && IsCritical(e.source) ==>
        e.source == tool
  }

  /** A critical tool that returns reports at least one item under its own name. */
  ghost predicate CriticalToolsReport(tools: Tools) {
    forall call: nat, tool | IsCritical(tool) && tools.respond(call, tool).Returned? ::
      exists e <- tools.respond(call, tool).items :: e.source == tool
  }

  /** Critical evidence comes only from executed tools. */
  predicate EvidenceFromExecuted(executions: seq<Execution>, evidence: seq<Item>) {
    forall e <- evidence :: IsCritical(e.source) ==> e.source in Names(executions)
  }

  /** Every executed critical tool left an item under its name. */
  predicate ExecutedLeaveEvidence(executions: seq<Execution>, evidence: seq<Item>) {
    forall x <- executions :: IsCritical(x.tool) ==> exists e <- evidence :: e.source == x.tool
  }

  lemma {:induction false} CollectedIsHonest(tools: Tools, call: nat, names: seq<Source>)
    requires NoImpersonation(tools)
    ensures EvidenceFromExecuted(Recorded(tools, call, names), Collected(tools, call, names))
    ensures CriticalToolsReport(tools) ==>
              ExecutedLeaveEvidence(Recorded(tools, call, names), Collected(tools, call, names))
    decreases names
  {
    if names != [] {
      CollectedIsHonest(tools, call + 1, names[1..]);
      var items := ItemsOf(CallOutcome(tools, call, names[0]), names[0]);
      var rest := Collected(tools, call + 1, names[1..]);
      forall e | e in Collected(tools, call, names) && IsCritical(e.source) ensures e.source in names {
        if e !in items { assert e in rest; }
      }
      if CriticalToolsReport(tools) {
        forall x | x in Recorded(tools, call, names) && IsCritical(x.tool)
          ensures exists e <- Collected(tools, call, names) :: e.source == x.tool {
          if x in Recorded(tools, call + 1, names[1..]) {
            var e :| e in rest && e.source == x.tool;
            assert e in Collected(tools, call, names);
          } else {
            var e :| e in items && e.source == names[0];
            assert e in Collected(tools, call, names);
          }
        }
      }
    }
  }

  lemma HonestAppend(tools: Tools, executions: seq<Execution>, evidence: seq<Item>, names: seq<Source>)
    requires NoImpersonation(tools) && EvidenceFromExecuted(executions, evidence)
    ensures EvidenceFromExecuted(executions + Recorded(tools, |executions|, names),
                                 evidence + Collected(tools, |executions|, names))
    ensures CriticalToolsReport(tools) && ExecutedLeaveEvidence(executions, evidence) ==>
      ExecutedLeaveEvidence(executions + Recorded(tools, |executions|, names),
                            evidence + Collected(tools, |executions|, names))
  {
    CollectedIsHonest(tools, |executions|, names);
    var more, records := Collected(tools, |executions|, names), Recorded(tools, |executions|, names);
    NamesAppend(executions, records);
    assert forall e :: e in evidence + more <==> e in evidence || e in more;
  }

  lemma {:induction false} InvestigateHonest(model: Model, tools: Tools, conflicting: bool, planned: seq<Source>,
                                             step: nat,
                                             executions: seq<Execution>, evidence: seq<Item>)
    requires model.interpretation.Interpreted? && step <= Steps(model)
    requires NoImpersonation(tools) && EvidenceFromExecuted(executions, evidence)
    requires CriticalToolsReport(tools) ==> ExecutedLeaveEvidence(executions, evidence)
    ensures var r := Investigate(model, tools, conflicting, planned, step, executions, evidence);
            r.Some? ==>
              && EvidenceFromExecuted(r.value.executions, r.value.evidence)
              && (CriticalToolsReport(tools) ==> ExecutedLeaveEvidence(r.value.executions, r.value.evidence))
    decreases Steps(model) - step
  {
    hide NoImpersonation, CriticalToolsReport, EvidenceFromExecuted, ExecutedLeaveEvidence, Collected, Recorded;
    hide UnresolvedAt;
    HonestAppend(tools, executions, evidence, NotIn(planned, Names(executions)));
    if step < Steps(model) && model.reply(step).Proposed? && model.reply(step).action.CallTool?
       && model.reply(step).action.tool.Some? {
      var tool := model.reply(step).action.tool.value;
      HonestAppend(tools, executions, evidence, [tool]);
      InvestigateHonest(model, tools, conflicting, planned, step + 1,
                        executions + Recorded(tools, |executions|, [tool]),
                        evidence + Collected(tools, |executions|, [tool]));
    }
  }

  lemma PlanHonest(model: Model, tools: Tools, resource: Resource, conflicting: bool, planned: seq<Source>)
    requires NoImpersonation(tools)
    ensures var r := PlanResult(model, tools, resource, conflicting, planned);
            r.Some? ==>
              && EvidenceFromExecuted(r.value.executions, r.value.evidence)
              && (CriticalToolsReport(tools) ==> ExecutedLeaveEvidence(r.value.executions, r.value.evidence))
  {
    hide NoImpersonation, CriticalToolsReport, Collected, Recorded;
    HonestAppend(tools, [], [], NotIn(planned, Names([])));
    if model.interpretation.Interpreted? {
      InvestigateHonest(model, tools, conflicting, planned, 0, [], []);
    }
  }

  // ----- composed with the decision pipeline -----

  /** `analyze_resource` after plan merging. */
  function AnalysisOf(resource: Resource, conflicting: bool, r: PlannerResult, evaluate: Evaluator): Decision {
    BuildDecision(resource, conflicting, Names(r.executions), r.executions, r.evidence,
                  MissingWithUnresolved(r.evidence, r.unresolved), evaluate)
  }

  /** `analyze_resource` without a configuration, which no service passes: the whole plan is run, without the hard
      precheck. */
  function UnconfiguredAnalysis(tools: Tools, resource: Resource, conflicting: bool, planned: seq<Source>,
                                evaluate: Evaluator): Decision {
    var evidence := Collected(tools, 0, planned);
    BuildDecision(resource, conflicting, planned, Recorded(tools, 0, planned), evidence, MissingFromEvidence(evidence),
                  evaluate)
  }

  method AnalyzeResource(configured: bool, model: Model, tools: Tools, resource: Resource, conflicting: bool,
                         planned: seq<Source>, evaluate: Evaluator)
    returns (d: Option<Decision>)
    ensures var r := PlanResult(model, tools, resource, conflicting, planned);
            d == if !configured then Some(UnconfiguredAnalysis(tools, resource, conflicting, planned, evaluate))
                 else if r.None? then None
                 else Some(AnalysisOf(resource, conflicting, r.value, evaluate))
  {
    if !configured {
      var evidence, records := CollectEvidence(tools, 0, planned);
      return Some(BuildDecision(resource, conflicting, planned, records, evidence, MissingFromEvidence(evidence),
                                evaluate));
    }
    var r := Plan(model, tools, resource, conflicting, planned);
    if r.None? { return None; }
    var missing := CollectMissing(r.value.evidence, r.value.unresolved);
    return Some(BuildDecision(resource, conflicting, Names(r.value.executions), r.value.executions, r.value.evidence,
                              missing, evaluate));
  }

  /** The unconfigured analysis makes the same promise, and recommends nothing for a protected resource either. */
  lemma UnconfiguredIsCovered(tools: Tools, resource: Resource, conflicting: bool, planned: seq<Source>,
                              evaluate: Evaluator)
    requires NoImpersonation(tools)
    ensures var d := UnconfiguredAnalysis(tools, resource, conflicting, planned, evaluate);
            d.finalStatus == RecommendationReady ==>
              && !resource.destructive && !resource.production && !UnavailableCritical(d.evidence)
              && (CriticalToolsReport(tools) ==>
                    forall t <- planned ::
                      IsCritical(t) ==> exists e <- d.evidence :: e.source == t && e.freshness != Unavailable)
  {
    hide NoImpersonation, CriticalToolsReport, RecommendationFacts, Collected, Recorded, BuildDecision;
    var evidence, records := Collected(tools, 0, planned), Recorded(tools, 0, planned);
    var missing := MissingFromEvidence(evidence);
    var d := UnconfiguredAnalysis(tools, resource, conflicting, planned, evaluate);
    BuiltOn(resource, conflicting, planned, records, evidence, missing, evaluate);
    if d.finalStatus == RecommendationReady {
      RecommendationIsEarned(resource, conflicting, planned, records, evidence, missing, evaluate);
      FactsExcludeGaps(resource, evidence, missing, d);
      CriticalMissingIff(evidence);
      CollectedIsHonest(tools, 0, planned);
      if CriticalToolsReport(tools) {
        forall t | t in planned && IsCritical(t)
          ensures exists e <- evidence :: e.source == t && e.freshness != Unavailable {
          var i :| 0 <= i < |planned| && planned[i] == t;
          assert records[i].tool == t && records[i] in records;
          var e :| e in evidence && e.source == t;
        }
      }
    }
  }

  lemma BuiltOn(resource: Resource, conflicting: bool, selected: seq<Source>, executions: seq<Execution>,
                evidence: seq<Item>,
                missing: seq<Missing>, evaluate: Evaluator)
    ensures BuildDecision(resource, conflicting, selected, executions, evidence, missing, evaluate).evidence == evidence
  {
    hide Ask;
  }

  /** End to end, for any model and any policy evaluator: an analysis that recommends a remediation executed every
      critical tool of the plan, none of its critical evidence is unavailable, and, when critical tools report under
      their own names, each of them has an available item on record. */
  lemma RecommendationIsCovered(model: Model, tools: Tools, resource: Resource, conflicting: bool,
                                planned: seq<Source>, evaluate: Evaluator)
    requires NoImpersonation(tools)
    ensures var r := PlanResult(model, tools, resource, conflicting, planned);
            r.Some? && AnalysisOf(resource, conflicting, r.value, evaluate).finalStatus == RecommendationReady ==>
              && (forall t <- planned :: IsCritical(t) ==> t in Names(r.value.executions))
              && !UnavailableCritical(r.value.evidence)
              && (CriticalToolsReport(tools) ==>
                    forall t <- planned ::
                      IsCritical(t) ==> exists e <- r.value.evidence :: e.source == t && e.freshness != Unavailable)
  {
    hide NoImpersonation, CriticalToolsReport, BuildDecision, RecommendationFacts, Investigate, MissingWithUnresolved;
    var plan := PlanResult(model, tools, resource, conflicting, planned);
    if plan.Some? {
      var r := plan.value;
      var missing := MissingWithUnresolved(r.evidence, r.unresolved);
      var d := AnalysisOf(resource, conflicting, r, evaluate);
      if d.finalStatus == RecommendationReady {
        RecommendationIsEarned(resource, conflicting, Names(r.executions), r.executions, r.evidence, missing, evaluate);
        FactsExcludeGaps(resource, r.evidence, missing, d);
        CriticalGapIff(r.evidence, r.unresolved);
        PlanCovers(model, tools, resource, conflicting, planned);
        PlanHonest(model, tools, resource, conflicting, planned);
        forall t | t in planned && IsCritical(t) ensures t in Names(r.executions) {
          if t in r.unresolved {
            assert t in KnownSources(r.evidence);
          }
        }
        if CriticalToolsReport(tools) {
          forall t | t in planned && IsCritical(t)
            ensures exists e <- r.evidence :: e.source == t && e.freshness != Unavailable {
            var i :| 0 <= i < |r.executions| && r.executions[i].tool == t;
            var e :| e in r.evidence && e.source == t;
          }
        }
      }
    }
  }

  lemma FactsExcludeGaps(resource: Resource, evidence: seq<Item>, missing: seq<Missing>, d: Decision)
    requires RecommendationFacts(resource, evidence, missing, d.conflicts, d.preferred)
    ensures !CriticalMissing(missing) && !resource.production
  {
  }

  /** Off the hard precheck, a critical tool of the plan that never ran, or critical evidence that came back
      unavailable, makes the analysis ask for evidence, whatever the model and the policy evaluator say. */
  lemma CriticalGapForcesRequest(model: Model, tools: Tools, resource: Resource, conflicting: bool,
                                 planned: seq<Source>, evaluate: Evaluator)
    requires NoImpersonation(tools) && !resource.destructive && !resource.production
    ensures var r := PlanResult(model, tools, resource, conflicting, planned);
            r.Some?
            && ((exists t <- planned :: IsCritical(t) && t !in Names(r.value.executions))
                || UnavailableCritical(r.value.evidence)) ==>
              var d := AnalysisOf(resource, conflicting, r.value, evaluate);
              d.preferred == AlternativeGenerator.RequestEvidence
              && (d.finalStatus == NeedsHumanContext || d.finalStatus == DecisionBlocked)
  {
    hide NoImpersonation, Investigate, PlanResult, MissingWithUnresolved, Conclude, Ask, BuildDecision;
    var plan := PlanResult(model, tools, resource, conflicting, planned);
    if plan.Some? {
      var r := plan.value;
      CriticalGapIff(r.evidence, r.unresolved);
      PlanCovers(model, tools, resource, conflicting, planned);
      PlanHonest(model, tools, resource, conflicting, planned);
      if exists t <- planned :: IsCritical(t) && t !in Names(r.executions) {
        var t :| t in planned && IsCritical(t) && t !in Names(r.executions);
        assert t in r.unresolved && t !in KnownSources(r.evidence);
      }
      var missing := MissingWithUnresolved(r.evidence, r.unresolved);
      if CriticalMissing(missing) {
        GapIsRequested(resource, conflicting, Names(r.executions), r.executions, r.evidence, missing, evaluate);
      }
    }
  }
}
