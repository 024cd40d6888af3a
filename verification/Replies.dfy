/** What becomes of each reply of the model that chooses tools (core/ai_plan_validator.py, `validate_agent_action`;
    core/ai_planner.py, the loop around it). */
module Replies {
  import opened Wrappers
  import opened Evidence
  import opened ReasoningEngine
  import opened AIPlanner

  /** The tool ran before, and nothing justifies running it again. */
  predicate IdleRepeat(tool: Source, executions: seq<Execution>, evidence: seq<Item>, refresh: bool) {
    && (exists x <- executions :: x.tool == tool) && !refresh
    && forall e <- evidence :: e.source == tool ==> e.freshness != Unavailable
  }

  /** There is neither evidence nor an open question to point to. */
  predicate NothingToShow(conflicting: bool, planned: seq<Source>, executions: seq<Execution>, evidence: seq<Item>) {
    evidence == [] && !conflicting && forall t <- planned :: exists x <- executions :: x.tool == t
  }

  /** The replies that may not be followed. */
  ghost predicate Refused(action: AgentAction, registered: seq<Source>, conflicting: bool, planned: seq<Source>,
                          executions: seq<Execution>, evidence: seq<Item>, refresh: bool) {
    match action
    case CallTool(unsafe, tool) =>
      unsafe || tool.None? || tool.value !in registered || IdleRepeat(tool.value, executions, evidence, refresh)
    case Finish(unsafe) => unsafe || exists t <- planned :: forall x <- executions :: x.tool != t
    case AskHuman(unsafe, clear) => unsafe || !clear || NothingToShow(conflicting, planned, executions, evidence)
    case ProposeAbstaining(unsafe) => unsafe || NothingToShow(conflicting, planned, executions, evidence)
  }

  lemma RanIff(tool: Source, executions: seq<Execution>)
    ensures tool in Names(executions) <==> exists x <- executions :: x.tool == tool
  {
    if tool in Names(executions) {
      var i :| 0 <= i < |executions| && Names(executions)[i] == tool;
      assert executions[i] in executions;
    }
    if x :| x in executions && x.tool == tool {
      var i :| 0 <= i < |executions| && executions[i] == x;
      assert Names(executions)[i] == tool;
    }
  }

  lemma OpenIff(conflicting: bool, planned: seq<Source>, executions: seq<Execution>, evidence: seq<Item>)
    ensures UnresolvedAt(conflicting, Distinct(planned), executions) == [] && evidence == []
            <==> NothingToShow(conflicting, planned, executions, evidence)
  {
    hide Distinct, NotIn, Names;
    forall t ensures t in Names(executions) <==> exists x <- executions :: x.tool == t { RanIff(t, executions); }
    var open := NotIn(Distinct(planned), Names(executions));
    if open != [] { assert open[0] in open; }
  }

  /** The validator turns down exactly the refused replies. */
  lemma AcceptsIff(action: AgentAction, registered: seq<Source>, conflicting: bool, planned: seq<Source>,
                   executions: seq<Execution>, evidence: seq<Item>, refresh: bool)
    ensures Accepts(action, registered, Names(executions), evidence, refresh, Distinct(planned),
                    UnresolvedAt(conflicting, Distinct(planned), executions))
            <==> !Refused(action, registered, conflicting, planned, executions, evidence, refresh)
  {
    hide Distinct, NotIn, Names, UnresolvedAt, NothingToShow;
    forall t ensures t in Names(executions) <==> exists x <- executions :: x.tool == t { RanIff(t, executions); }
    OpenIff(conflicting, planned, executions, evidence);
  }

  // ----- one step of the investigation -----

  /** The plan is completed without the model: what was planned and has not run is run, and all of the plan has then
      run. */
  predicate Completed(r: Option<PlannerResult>, planned: seq<Source>, executions: seq<Execution>) {
    && r.Some? && r.value.termination == PlanCompleted && executions <= r.value.executions
    && (forall t <- planned :: exists x <- r.value.executions :: x.tool == t)
    && forall i | |executions| <= i < |r.value.executions| ::
         var tool := r.value.executions[i].tool;
         tool in planned && forall x <- executions :: x.tool != tool
  }

  lemma CompleteCompletes(tools: Tools, planned: seq<Source>, executions: seq<Execution>, evidence: seq<Item>)
    ensures Completed(Some(Complete(tools, planned, executions, evidence)), planned, executions)
  {
    hide Collected;
    var remaining := NotIn(planned, Names(executions));
    var more := Recorded(tools, |executions|, remaining);
    var r := Complete(tools, planned, executions, evidence);
    CompleteCovers(tools, planned, executions, evidence);
    hide NotIn, Recorded;
    forall t <- planned ensures exists x <- r.executions :: x.tool == t { RanIff(t, r.executions); }
    forall i | |executions| <= i < |r.executions|
      ensures r.executions[i].tool in planned && forall x <- executions :: x.tool != r.executions[i].tool
    {
      var k := i - |executions|;
      assert r.executions[i] == more[k] && Names(more)[k] == more[k].tool && more[k].tool in remaining;
      RanIff(more[k].tool, executions);
    }
  }

  /** Whatever a reply proposes: a refused one, a client's error and running out of steps end in the completed plan; a
      client's exception ends the analysis. */
  lemma RefusalCompletesThePlan(model: Model, tools: Tools, conflicting: bool, planned: seq<Source>, step: nat,
                                executions: seq<Execution>, evidence: seq<Item>)
    requires model.interpretation.Interpreted? && step <= Steps(model)
    ensures var r := Investigate(model, tools, conflicting, planned, step, executions, evidence);
            var reply := model.reply(step);
            && (step == Steps(model) ==> Completed(r, planned, executions))
            && (step < Steps(model) && reply.ClientError? ==> Completed(r, planned, executions))
            && (step < Steps(model) && reply.ReplyRaises? ==> r.None?)
            && (step < Steps(model) && reply.Proposed?
                && Refused(reply.action, tools.registered, conflicting, planned, executions, evidence,
                           model.interpretation.refresh) ==>
                  Completed(r, planned, executions))
  {
    hide Completed, Complete, Refused, Accepts, Distinct, UnresolvedAt, Names, Collected, Recorded;
    CompleteCompletes(tools, planned, executions, evidence);
    if step < Steps(model) && model.reply(step).Proposed? {
      AcceptsIff(model.reply(step).action, tools.registered, conflicting, planned, executions, evidence,
                 model.interpretation.refresh);
    }
  }

  /** A tool call that may be followed runs exactly that tool: one record, its items or one unavailable item, and the
      investigation goes on. Any other such reply ends it at once, with nothing run. */
  lemma AcceptedReplyIsFollowed(model: Model, tools: Tools, conflicting: bool, planned: seq<Source>, step: nat,
                                executions: seq<Execution>, evidence: seq<Item>)
    requires model.interpretation.Interpreted? && step < Steps(model) && model.reply(step).Proposed?
    requires !Refused(model.reply(step).action, tools.registered, conflicting, planned, executions, evidence,
                      model.interpretation.refresh)
    ensures var r := Investigate(model, tools, conflicting, planned, step, executions, evidence);
            match model.reply(step).action
            case CallTool(_, tool) =>
              tool.Some? &&
              var outcome := tools.respond(|executions|, tool.value);
              var items := if outcome.Returned? then outcome.items else [Item(tool.value, Unavailable, 0.0, None)];
              r == Investigate(model, tools, conflicting, planned, step + 1,
                               executions + [Execution(tool.value, outcome.Returned?)], evidence + items)
            case Finish(_) => Stopped(r, AiFinished, executions, evidence)
            case AskHuman(_, _) => Stopped(r, HumanContextRequested, executions, evidence)
            case ProposeAbstaining(_) => Stopped(r, AiAbstained, executions, evidence)
  {
    hide Complete, Accepts, Distinct, UnresolvedAt, Names, NotIn, Refused;
    var action := model.reply(step).action;
    AcceptsIff(action, tools.registered, conflicting, planned, executions, evidence, model.interpretation.refresh);
    if action.CallTool? {
      CallIsRegistered(action, tools.registered, conflicting, planned, executions, evidence,
                       model.interpretation.refresh);
      OneCall(tools, |executions|, action.tool.value);
    }
  }

  predicate Stopped(r: Option<PlannerResult>, termination: Termination, executions: seq<Execution>,
                    evidence: seq<Item>) {
    r.Some? && r.value.termination == termination && r.value.executions == executions && r.value.evidence == evidence
  }

  lemma CallIsRegistered(action: AgentAction, registered: seq<Source>, conflicting: bool, planned: seq<Source>,
                         executions: seq<Execution>, evidence: seq<Item>, refresh: bool)
    requires action.CallTool? && !Refused(action, registered, conflicting, planned, executions, evidence, refresh)
    ensures action.tool.Some? && action.tool.value in registered
  {
  }

  lemma OneCall(tools: Tools, call: nat, tool: Source)
    requires tool in tools.registered
    ensures var outcome := tools.respond(call, tool);
            && Recorded(tools, call, [tool]) == [Execution(tool, outcome.Returned?)]
            && Collected(tools, call, [tool])
               == if outcome.Returned? then outcome.items else [Item(tool, Unavailable, 0.0, None)]
  {
    CollectedNothing(tools, call + 1);
    assert [tool][1..] == [];
  }

  // ----- whole investigations -----

  /** Some reply up to this step, safe as to its text, proposed it. */
  ghost predicate ProposedBy(model: Model, steps: nat, tool: Source) {
    exists k: nat :: k < steps && model.reply(k) == Proposed(CallTool(false, Some(tool)))
  }

  /** Why a tool may be on record. */
  ghost predicate Justified(model: Model, tools: Tools, planned: seq<Source>, tool: Source) {
    tool in planned || (tool in tools.registered && ProposedBy(model, Steps(model), tool))
  }

  /** What a termination means for the reply that caused it. */
  ghost predicate StoppedBy(model: Model, termination: Termination) {
    match termination
    case AiFinished => exists k: nat :: k < Steps(model) && model.reply(k) == Proposed(Finish(false))
    case AiAbstained => exists k: nat :: k < Steps(model) && model.reply(k) == Proposed(ProposeAbstaining(false))
    case HumanContextRequested => exists k: nat :: k < Steps(model) && model.reply(k) == Proposed(AskHuman(false, true))
    case _ => true
  }

  /** No reply whose text names a prohibited operation is ever followed: every tool on record was planned or asked for
      by a safe reply, registered in that case, and the model stopped an investigation only by a safe reply. */
  lemma {:induction false} OnlySafeRepliesAreFollowed(model: Model, tools: Tools, conflicting: bool,
                                                      planned: seq<Source>,
                                                      step: nat, executions: seq<Execution>, evidence: seq<Item>)
    requires model.interpretation.Interpreted? && step <= Steps(model)
    requires forall x <- executions :: Justified(model, tools, planned, x.tool)
    ensures var r := Investigate(model, tools, conflicting, planned, step, executions, evidence);
            r.Some? ==>
              && (forall x <- r.value.executions :: Justified(model, tools, planned, x.tool))
              && StoppedBy(model, r.value.termination)
    decreases Steps(model) - step
  {
    hide Investigate, Refused, Completed, Justified, StoppedBy;
    RefusalCompletesThePlan(model, tools, conflicting, planned, step, executions, evidence);
    var r := Investigate(model, tools, conflicting, planned, step, executions, evidence);
    if Completed(r, planned, executions) {
      CompletionIsJustified(model, tools, planned, executions, r);
    } else if step < Steps(model) && model.reply(step).Proposed? {
      AcceptedReplyIsFollowed(model, tools, conflicting, planned, step, executions, evidence);
      SafeReplies(model, tools, conflicting, planned, step, executions, evidence);
      var action := model.reply(step).action;
      if action.CallTool? {
        var tool := action.tool.value;
        var outcome := tools.respond(|executions|, tool);
        var items := if outcome.Returned? then outcome.items else [Item(tool, Unavailable, 0.0, None)];
        OnlySafeRepliesAreFollowed(model, tools, conflicting, planned, step + 1,
                                   executions + [Execution(tool, outcome.Returned?)], evidence + items);
      }
    }
  }

  lemma CompletionIsJustified(model: Model, tools: Tools, planned: seq<Source>, executions: seq<Execution>,
                              r: Option<PlannerResult>)
    requires Completed(r, planned, executions) && forall x <- executions :: Justified(model, tools, planned, x.tool)
    ensures forall x <- r.value.executions :: Justified(model, tools, planned, x.tool)
    ensures StoppedBy(model, r.value.termination)
  {
    forall x <- r.value.executions ensures Justified(model, tools, planned, x.tool) {
      var i :| 0 <= i < |r.value.executions| && r.value.executions[i] == x;
      if i < |executions| { assert x == executions[i]; }
    }
  }

  lemma SafeReplies(model: Model, tools: Tools, conflicting: bool, planned: seq<Source>, step: nat,
                    executions: seq<Execution>, evidence: seq<Item>)
    requires model.interpretation.Interpreted? && step < Steps(model) && model.reply(step).Proposed?
    requires !Refused(model.reply(step).action, tools.registered, conflicting, planned, executions, evidence,
                      model.interpretation.refresh)
    ensures match model.reply(step).action
            case CallTool(_, tool) => tool.Some? && Justified(model, tools, planned, tool.value)
            case Finish(_) => StoppedBy(model, AiFinished)
            case AskHuman(_, _) => StoppedBy(model, HumanContextRequested)
            case ProposeAbstaining(_) => StoppedBy(model, AiAbstained)
  {
    var action := model.reply(step).action;
    if action.CallTool? { assert model.reply(step) == Proposed(CallTool(false, Some(action.tool.value))); }
  }

  /** The same of every plan the services run. */
  lemma PlanFollowsSafeReplies(model: Model, tools: Tools, resource: Resource, conflicting: bool, planned: seq<Source>)
    ensures var r := PlanResult(model, tools, resource, conflicting, planned);
            r.Some? ==>
              && (forall x <- r.value.executions :: Justified(model, tools, planned, x.tool))
              && StoppedBy(model, r.value.termination)
  {
    hide Investigate, Complete, Justified, StoppedBy, Completed;
    if resource.destructive || resource.production {
      assert StoppedBy(model, HardPrecheck) by { PrecheckIsNoReply(model); }
    } else if !model.enabled || !model.present || model.interpretation.NotInterpreted? {
      CompleteCompletes(tools, planned, [], []);
      CompletionIsJustified(model, tools, planned, [], Some(Complete(tools, planned, [], [])));
    } else {
      OnlySafeRepliesAreFollowed(model, tools, conflicting, planned, 0, [], []);
    }
  }

  lemma PrecheckIsNoReply(model: Model)
    ensures StoppedBy(model, HardPrecheck)
  {
  }

  // ----- repetitions -----

  /** Every repetition on record had evidence of the tool's earlier failure before it. */
  predicate RepeatsAfterFailure(executions: seq<Execution>, evidence: seq<Item>) {
    forall i, j | 0 <= i < j < |executions| && executions[i].tool == executions[j].tool ::
      exists e <- evidence :: e.source == executions[j].tool && e.freshness == Unavailable
  }

  lemma RepeatOneMore(executions: seq<Execution>, evidence: seq<Item>, x: Execution, items: seq<Item>)
    requires RepeatsAfterFailure(executions, evidence) && !IdleRepeat(x.tool, executions, evidence, false)
    ensures RepeatsAfterFailure(executions + [x], evidence + items)
  {
    var all, more := executions + [x], evidence + items;
    forall i, j | 0 <= i < j < |all| && all[i].tool == all[j].tool
      ensures exists e <- more :: e.source == all[j].tool && e.freshness == Unavailable
    {
      if j < |executions| {
        var e :| e in evidence && e.source == executions[j].tool && e.freshness == Unavailable;
        assert e in more;
      } else {
        assert executions[i] in executions;
        var e :| e in evidence && e.source == x.tool && e.freshness == Unavailable;
        assert e in more;
      }
    }
  }

  /** Unless the goal asks for fresh evidence, the model's calls repeat a tool only after it left unavailable evidence;
      and the completion of a plan without repetitions repeats nothing. */
  lemma {:induction false} RepeatsNeedFailure(model: Model, tools: Tools, conflicting: bool, planned: seq<Source>,
                                              step: nat, executions: seq<Execution>, evidence: seq<Item>)
    requires model.interpretation.Interpreted? && !model.interpretation.refresh && step <= Steps(model)
    requires NoTwice(planned)
    requires RepeatsAfterFailure(executions, evidence)
    ensures var r := Investigate(model, tools, conflicting, planned, step, executions, evidence);
            r.Some? ==> RepeatsAfterFailure(r.value.executions, r.value.evidence)
    decreases Steps(model) - step
  {
    hide Refused, Completed, RepeatsAfterFailure, Accepts, Names, Complete, IdleRepeat, Collected, Recorded, Distinct;
    hide UnresolvedAt, NotIn;
    CompletionRepeatsNothing(tools, planned, executions, evidence);
    if step < Steps(model) && model.reply(step).Proposed? {
      var action := model.reply(step).action;
      AcceptsIff(action, tools.registered, conflicting, planned, executions, evidence, false);
      if action.CallTool? && !Refused(action, tools.registered, conflicting, planned, executions, evidence, false) {
        AcceptedReplyIsFollowed(model, tools, conflicting, planned, step, executions, evidence);
        CallIsNoIdleRepeat(action, tools.registered, conflicting, planned, executions, evidence);
        var tool := action.tool.value;
        var outcome := tools.respond(|executions|, tool);
        var items := if outcome.Returned? then outcome.items else [Item(tool, Unavailable, 0.0, None)];
        RepeatOneMore(executions, evidence, Execution(tool, outcome.Returned?), items);
        RepeatsNeedFailure(model, tools, conflicting, planned, step + 1,
                           executions + [Execution(tool, outcome.Returned?)], evidence + items);
      }
    }
  }

  lemma CallIsNoIdleRepeat(action: AgentAction, registered: seq<Source>, conflicting: bool, planned: seq<Source>,
                           executions: seq<Execution>, evidence: seq<Item>)
    requires action.CallTool? && !Refused(action, registered, conflicting, planned, executions, evidence, false)
    ensures action.tool.Some? && !IdleRepeat(action.tool.value, executions, evidence, false)
  {
    hide IdleRepeat;
  }

  predicate NoTwice(tools: seq<Source>) {
    forall i, j | 0 <= i < j < |tools| :: tools[i] != tools[j]
  }

  lemma {:induction false} NotInKeepsDistinct(planned: seq<Source>, done: seq<Source>)
    requires NoTwice(planned)
    ensures NoTwice(NotIn(planned, done))
  {
    if planned != [] {
      var first, rest := planned[0], NotIn(planned[1..], done);
      assert forall i | 0 <= i < |planned| - 1 :: planned[1..][i] == planned[i + 1];
      NotInKeepsDistinct(planned[1..], done);
      forall i | 0 <= i < |rest| ensures rest[i] != first {
        assert rest[i] in rest && rest[i] in planned[1..];
      }
      assert NotIn(planned, done) == if first in done then rest else [first] + rest;
    }
  }

  /** What the completion of a plan without repetitions runs is new. */
  lemma CompletionIsNew(tools: Tools, planned: seq<Source>, executions: seq<Execution>, evidence: seq<Item>)
    requires NoTwice(planned)
    ensures var r := Complete(tools, planned, executions, evidence);
            forall i, j | |executions| <= j < |r.executions| && 0 <= i < j ::
              r.executions[i].tool != r.executions[j].tool
  {
    hide Collected, Recorded, NotIn;
    var rest := NotIn(planned, Names(executions));
    var more := Recorded(tools, |executions|, rest);
    NotInKeepsDistinct(planned, Names(executions));
    assert forall k | 0 <= k < |rest| :: more[k].tool == Names(more)[k] == rest[k] && rest[k] in rest;
    assert forall i | 0 <= i < |executions| :: executions[i].tool == Names(executions)[i];
  }

  lemma CompletionRepeatsNothing(tools: Tools, planned: seq<Source>, executions: seq<Execution>, evidence: seq<Item>)
    requires NoTwice(planned) && RepeatsAfterFailure(executions, evidence)
    ensures var r := Complete(tools, planned, executions, evidence); RepeatsAfterFailure(r.executions, r.evidence)
  {
    hide Collected, Recorded, NotIn;
    var r := Complete(tools, planned, executions, evidence);
    CompletionIsNew(tools, planned, executions, evidence);
    forall i, j | 0 <= i < j < |r.executions| && r.executions[i].tool == r.executions[j].tool
      ensures exists e <- r.evidence :: e.source == r.executions[j].tool && e.freshness == Unavailable
    {
      assert r.executions[..|executions|] == executions;
      var e :| e in evidence && e.source == executions[j].tool && e.freshness == Unavailable;
      assert e in r.evidence;
    }
  }
}
