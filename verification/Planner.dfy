/** The deterministic investigation plan for one resource (core/planner.py). */
module Planner {
  import opened Evidence

  datatype Question = Question(id: string, sources: seq<Source>)

  datatype InvestigationPlan = InvestigationPlan(questions: seq<Question>, selected: seq<Source>, skipped: seq<Source>)

  /** Jira's status as two comparisons see it: "completed" as written; otherwise "completed" or "inactive" in whatever
      case; or neither. */
  datatype WorkStatus = CompletedExactly | SettledOtherwise | Unsettled

  /** What the plan depends on: the resource, the scenario and the words of the goal. */
  datatype Context = Context(
    resource: Resource, conflicting: bool, awsGoal: bool, githubGoal: bool, jiraGoal: bool, costGoal: bool,
    typeChanged: bool, dependencyKnown: bool, pricingAvailable: bool, dependenciesAvailable: bool, jira: WorkStatus,
    recentCommits: int)

  const NORMAL_TOOLS: seq<Source> := [Pricing, Utilization, Jira, GitActivity, Dependencies]

  /** The tools a goal may name, with the question each one answers. */
  const AWS: seq<(Source, string)> :=
    [(Other("aws_inventory"), "aws_inventory"), (Other("aws_cloudwatch"), "aws_utilization"),
     (Other("aws_tags"), "aws_tags"), (Other("aws_pricing"), "aws_pricing")]
  const GITHUB: seq<(Source, string)> :=
    [(Other("github_pr_context"), "github_pr_context"), (Other("github_activity"), "github_activity"),
     (Other("github_ownership"), "github_ownership"), (Other("github_reviews"), "github_reviews")]
  const JIRA: seq<(Source, string)> :=
    [(Other("jira_project_context"), "jira_project_context"), (Other("jira_issue_context"), "jira_issue_context"),
     (Other("jira_activity"), "jira_activity"), (Other("jira_ownership"), "jira_ownership")]

  predicate ConflictPossible(c: Context) {
    c.jira == CompletedExactly && c.recentCommits > 0
  }

  /** Planning stops before any evidence: a destructive change outside a conflict audit, or production. */
  predicate PolicyOnly(c: Context) {
    (c.resource.destructive && !c.conflicting) || c.resource.production
  }

  predicate InGroup(group: seq<(Source, string)>, tool: Source) {
    exists g <- group :: g.0 == tool
  }

  /** The evidence the change calls for. */
  predicate Relevant(c: Context, tool: Source) {
    match tool
    case Pricing => c.typeChanged && !c.dependencyKnown && !ConflictPossible(c)
    case Utilization => c.typeChanged || c.costGoal
    case Jira => true
    case GitActivity => c.jira != Unsettled
    case Dependencies => c.typeChanged || c.dependencyKnown || !c.pricingAvailable || !c.dependenciesAvailable
    case HumanReview => false
    case Other(_) =>
      (c.awsGoal && InGroup(AWS, tool)) || (c.githubGoal && InGroup(GITHUB, tool))
      || (c.jiraGoal && InGroup(JIRA, tool))
  }

  ghost predicate NoDuplicates<T>(s: seq<T>) {
    forall i, j | 0 <= i < j < |s| :: s[i] != s[j]
  }

  ghost predicate DistinctIds(questions: seq<Question>) {
    forall i, j | 0 <= i < j < |questions| :: questions[i].id != questions[j].id
  }

  /** What a plan for `c` must be. */
  ghost predicate Plans(c: Context, registered: seq<Source>, plan: InvestigationPlan) {
    && NoDuplicates(plan.selected) && NoDuplicates(plan.skipped) && DistinctIds(plan.questions)
    // exactly the relevant tools that exist
    && (forall t :: t in plan.selected <==> t in registered && !PolicyOnly(c) && Relevant(c, t))
    // every normal tool that exists is either selected or skipped, never both
    && (forall t <- NORMAL_TOOLS :: t in registered ==> (t in plan.selected <==> t !in plan.skipped))
    && (forall t <- plan.skipped :: t in NORMAL_TOOLS && t !in plan.selected)
    // a tool that does not exist is called skipped in two cases only
    && (forall t | t !in registered :: t in plan.skipped <==>
          !PolicyOnly(c)
          && ((t == Pricing && c.typeChanged && !Relevant(c, t)) || (t == GitActivity && !Relevant(c, t))))
    // each selected tool answers some question, and a question waits for a tool only if that tool does not exist
    && (forall t <- plan.selected :: exists q <- plan.questions :: t in q.sources)
    && (forall q <- plan.questions, t <- q.sources :: t in plan.selected <==> t in registered)
  }

  // ----- question ids -----

  /** The place of each fixed question id in the order the plan asks; length and first letter tell them apart. */
  function Place(id: string): nat {
    var code := if id == "" then 0 else |id| * 1000 + id[0] as int;
    if code == 13097 then 0 else if code == 15097 then 1 else if code == 8097 then 2 else if code == 11097 then 3
    else if code == 17103 then 4 else if code == 15103 then 5 else if code == 16103 then 6 else if code == 14103 then 7
    else if code == 20106 then 8 else if code == 18106 then 9
    else if code == 13106 then 10 else if code == 14106 then 11
    else if code == 11099 then 12 else if code == 11117 then 13
    else if code == 15112 then 14 else if code == 12103 then 15
    else 16
  }

  /** The questions' ids differ, and all come before place `n`. */
  ghost predicate Placed(questions: seq<Question>, n: nat) {
    DistinctIds(questions) && forall q <- questions :: Place(q.id) < n
  }

  lemma PlacedOneMore(questions: seq<Question>, q: Question)
    requires Placed(questions, Place(q.id))
    ensures Placed(questions + [q], Place(q.id) + 1)
  {
    hide Place;
    forall i | 0 <= i < |questions| ensures questions[i].id != q.id {
      assert questions[i] in questions;
    }
  }

  lemma PlacedIsDistinct(questions: seq<Question>, n: nat)
    requires Placed(questions, n)
    ensures DistinctIds(questions)
  {
  }

  lemma GoalPlaces()
    ensures GroupIds(AWS, 0) && GroupIds(GITHUB, 4) && GroupIds(JIRA, 8)
  {
  }

  lemma OwnPlaces()
    ensures Place("cost_impact") == 12 && Place("utilization") == 13 && Place("project_context") == 14
    ensures Place("git_activity") == 15 && Place("dependencies") == 16
  {
  }

  // ----- building the plan -----

  /** The `select` closure. */
  function Select(selected: seq<Source>, registered: seq<Source>, tool: Source): (r: seq<Source>)
    ensures NoDuplicates(selected) ==> NoDuplicates(r)
    ensures forall t :: t in r <==> t in selected || (t == tool && tool in registered)
  {
    if tool in registered && tool !in selected then selected + [tool] else selected
  }

  ghost predicate Answered(selected: seq<Source>, registered: seq<Source>, questions: seq<Question>) {
    && (forall t <- selected :: exists q <- questions :: t in q.sources)
    && (forall q <- questions, t <- q.sources :: t in selected <==> t in registered)
  }

  /** Selecting a tool together with its question. */
  lemma AnsweredOneMore(selected: seq<Source>, registered: seq<Source>, questions: seq<Question>, tool: Source,
                        id: string)
    requires Answered(selected, registered, questions)
    ensures Answered(Select(selected, registered, tool), registered, questions + [Question(id, [tool])])
  {
    var more := questions + [Question(id, [tool])];
    assert more[|questions|] in more;
    forall t | t in Select(selected, registered, tool) ensures exists q <- more :: t in q.sources {
      if t in selected {
        var q :| q in questions && t in q.sources;
        assert q in more;
      }
    }
  }

  /** One tool with its question, added if it is wanted. */
  method AddTool(wanted: bool, registered: seq<Source>, tool: Source, id: string,
                 selected0: seq<Source>, questions0: seq<Question>)
    returns (selected: seq<Source>, questions: seq<Question>)
    requires NoDuplicates(selected0) && Answered(selected0, registered, questions0) && Placed(questions0, Place(id))
    ensures forall t :: t in selected <==> t in selected0 || (t == tool && wanted && tool in registered)
    ensures NoDuplicates(selected) && Answered(selected, registered, questions) && Placed(questions, Place(id) + 1)
  {
    hide Place;
    if wanted {
      AnsweredOneMore(selected0, registered, questions0, tool, id);
      PlacedOneMore(questions0, Question(id, [tool]));
      selected := Select(selected0, registered, tool);
      questions := questions0 + [Question(id, [tool])];
    } else {
      selected, questions := selected0, questions0;
    }
  }

  ghost predicate GroupIds(group: seq<(Source, string)>, first: nat) {
    |group| == 4 && forall i | 0 <= i < |group| :: Place(group[i].1) == first + i
  }

  /** The tools a word in the goal brings into scope; each is asked about only if it exists. */
  method SelectGroup(group: seq<(Source, string)>, wanted: bool, registered: seq<Source>,
                     selected0: seq<Source>, questions0: seq<Question>, ghost first: nat)
    returns (selected: seq<Source>, questions: seq<Question>)
    requires NoDuplicates(selected0) && Answered(selected0, registered, questions0)
    requires Placed(questions0, first) && GroupIds(group, first)
    ensures NoDuplicates(selected) && Answered(selected, registered, questions)
    ensures Placed(questions, first + 4)
    ensures forall t :: t in selected <==> t in selected0 || (wanted && t in registered && InGroup(group, t))
  {
    selected, questions := selected0, questions0;
    if wanted {
      hide NoDuplicates, Answered, Place;
      for i := 0 to |group|
        invariant NoDuplicates(selected) && Answered(selected, registered, questions)
        invariant Placed(questions, first + i)
        invariant forall t :: t in selected <==> t in selected0 || (t in registered && InGroup(group[..i], t))
      {
        var (tool, id) := group[i];
        assert group[..i + 1] == group[..i] + [group[i]];
        selected, questions := AddTool(tool in registered, registered, tool, id, selected, questions);
      }
      assert group[..|group|] == group;
    }
  }

  /** The goal's part of the plan. */
  method SelectForGoal(c: Context, registered: seq<Source>) returns (selected: seq<Source>, questions: seq<Question>)
    ensures NoDuplicates(selected) && Answered(selected, registered, questions) && Placed(questions, 12)
    ensures forall t :: t in selected <==> t in registered && t.Other? && Relevant(c, t)
  {
    GoalPlaces();
    hide NoDuplicates, Answered, Placed, Place, GroupIds;
    Nothing(registered);
    selected, questions := SelectGroup(AWS, c.awsGoal, registered, [], [], 0);
    selected, questions := SelectGroup(GITHUB, c.githubGoal, registered, selected, questions, 4);
    selected, questions := SelectGroup(JIRA, c.jiraGoal, registered, selected, questions, 8);
  }

  lemma Nothing(registered: seq<Source>)
    ensures NoDuplicates<Source>([]) && Answered([], registered, []) && Placed([], 0)
  {
  }

  /** Every normal tool that exists and was neither selected nor skipped is skipped. */
  method SkipRest(registered: seq<Source>, selected: seq<Source>, skipped0: seq<Source>) returns (skipped: seq<Source>)
    requires NoDuplicates(skipped0)
    ensures NoDuplicates(skipped)
    ensures forall t :: t in skipped <==> t in skipped0 || (t in NORMAL_TOOLS && t in registered && t !in selected)
  {
    skipped := skipped0;
    for i := 0 to |NORMAL_TOOLS|
      invariant NoDuplicates(skipped)
      invariant forall t ::
                  t in skipped <==> t in skipped0 || (t in NORMAL_TOOLS[..i] && t in registered && t !in selected)
    {
      var tool := NORMAL_TOOLS[i];
      assert NORMAL_TOOLS[..i + 1] == NORMAL_TOOLS[..i] + [tool];
      if tool in registered && tool !in selected && tool !in skipped { skipped := skipped + [tool]; }
    }
    assert NORMAL_TOOLS[..|NORMAL_TOOLS|] == NORMAL_TOOLS;
  }

  /** The normal tools skipped before the rest is looked at, whether or not they exist. */
  function Deferred(c: Context): seq<Source> {
    (if c.typeChanged && !Relevant(c, Pricing) then [Pricing] else [])
    + (if c.jira == Unsettled then [GitActivity] else [])
  }

  /** The part of the plan that inspects the change and the project's status. */
  method SelectForChange(c: Context, registered: seq<Source>)
    returns (selected: seq<Source>, skipped: seq<Source>, questions: seq<Question>)
    ensures NoDuplicates(selected) && Answered(selected, registered, questions) && DistinctIds(questions)
    ensures forall t :: t in selected <==> t in registered && Relevant(c, t)
    ensures skipped == Deferred(c)
  {
    OwnPlaces();
    hide Place, Placed, Answered, NoDuplicates, DistinctIds, InGroup;
    skipped := [];
    selected, questions := SelectForGoal(c, registered);
    var quantify := c.typeChanged && !c.dependencyKnown && !ConflictPossible(c);
    selected, questions := AddTool(quantify, registered, Pricing, "cost_impact", selected, questions);
    if c.typeChanged && !quantify { skipped := skipped + [Pricing]; }
    var load := c.typeChanged || c.costGoal;
    selected, questions := AddTool(load, registered, Utilization, "utilization", selected, questions);
    selected, questions := AddTool(true, registered, Jira, "project_context", selected, questions);
    var activity := c.jira != Unsettled || ConflictPossible(c);
    selected, questions := AddTool(activity, registered, GitActivity, "git_activity", selected, questions);
    if !activity { skipped := skipped + [GitActivity]; }
    var missing := !c.pricingAvailable || !c.dependenciesAvailable;
    var affects := c.typeChanged || c.dependencyKnown || missing;
    selected, questions := AddTool(affects, registered, Dependencies, "dependencies", selected, questions);
    PlacedIsDistinct(questions, 17);
  }

  lemma DeferredFacts(c: Context)
    ensures NoDuplicates(Deferred(c))
    ensures forall t ::
              t in Deferred(c)
              <==> (t == Pricing && c.typeChanged && !Relevant(c, t)) || (t == GitActivity && !Relevant(c, t))
  {
  }

  method CreateInvestigationPlan(c: Context, registered: seq<Source>) returns (plan: InvestigationPlan)
    ensures Plans(c, registered, plan)
  {
    hide NoDuplicates, DistinctIds, Relevant, Deferred;
    Nothing(registered);
    if c.resource.destructive && !c.conflicting {
      var rest := SkipRest(registered, [], []);
      plan := PolicyPlan("policy_destructive", rest);
      return;
    }
    if c.resource.production {
      var rest := SkipRest(registered, [], []);
      plan := PolicyPlan("policy_production", rest);
      return;
    }
    var selected, deferred, questions := SelectForChange(c, registered);
    DeferredFacts(c);
    var skipped := SkipRest(registered, selected, deferred);
    plan := InvestigationPlan(questions, selected, skipped);
  }

  function PolicyPlan(id: string, skipped: seq<Source>): (plan: InvestigationPlan)
    ensures DistinctIds(plan.questions)
  {
    InvestigationPlan([Question(id, [])], [], skipped)
  }

  /** `Plans` leaves no freedom in which tools are selected and which are skipped. */
  lemma PlansAgree(c: Context, registered: seq<Source>, p: InvestigationPlan, q: InvestigationPlan)
    requires Plans(c, registered, p) && Plans(c, registered, q)
    ensures forall t :: (t in p.selected <==> t in q.selected) && (t in p.skipped <==> t in q.skipped)
  {
    forall t ensures t in p.skipped <==> t in q.skipped {
      if t in registered && t in NORMAL_TOOLS {
        assert t in p.selected <==> t in q.selected;
      }
    }
  }

  /** Tool by tool, when a plan selects it. */
  lemma ToolIsPlannedIff(c: Context, registered: seq<Source>, plan: InvestigationPlan, tool: Source)
    requires Plans(c, registered, plan)
    ensures tool in plan.selected <==>
      && tool in registered && !c.resource.production && (c.resource.destructive ==> c.conflicting)
      && match tool
         case Pricing => c.typeChanged && !c.dependencyKnown && !(c.jira == CompletedExactly && c.recentCommits >= 1)
         case Utilization => c.typeChanged || c.costGoal
         case Jira => true
         case GitActivity => c.jira == CompletedExactly || c.jira == SettledOtherwise
         case Dependencies => c.typeChanged || c.dependencyKnown || !(c.pricingAvailable && c.dependenciesAvailable)
         case HumanReview => false
         case Other(name) =>
           || (c.awsGoal && name in {"aws_inventory", "aws_cloudwatch", "aws_tags", "aws_pricing"})
           || (c.githubGoal && name in {"github_pr_context", "github_activity", "github_ownership", "github_reviews"})
           || (c.jiraGoal && name in {"jira_project_context", "jira_issue_context", "jira_activity", "jira_ownership"})
  {
    hide NoDuplicates, DistinctIds, InGroup;
    if tool.Other? { GroupNames(tool.name); }
  }

  lemma GroupNames(name: string)
    ensures InGroup(AWS, Other(name)) <==> name in {"aws_inventory", "aws_cloudwatch", "aws_tags", "aws_pricing"}
    ensures InGroup(GITHUB, Other(name))
            <==> name in {"github_pr_context", "github_activity", "github_ownership", "github_reviews"}
    ensures InGroup(JIRA, Other(name))
            <==> name in {"jira_project_context", "jira_issue_context", "jira_activity", "jira_ownership"}
  {
    FourNames(AWS, name);
    FourNames(GITHUB, name);
    FourNames(JIRA, name);
  }

  lemma FourNames(group: seq<(Source, string)>, name: string)
    requires |group| == 4
    ensures InGroup(group, Other(name)) <==>
      group[0].0 == Other(name) || group[1].0 == Other(name) || group[2].0 == Other(name) || group[3].0 == Other(name)
  {
    if InGroup(group, Other(name)) {
      var g :| g in group && g.0 == Other(name);
      var i :| 0 <= i < 4 && group[i] == g;
    }
  }
}
