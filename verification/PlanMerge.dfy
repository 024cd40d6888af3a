/** Model-proposed plans: their validation and their merge into the deterministic plan (core/gemini_planning.py). */
module PlanMerge {
  import opened Wrappers
  import opened Evidence
  import opened Planner
  import opened ReasoningEngine
  import AI = AIPlanner

  /** A proposed plan; `prohibited` says whether any of its texts names a prohibited operation. */
  datatype Proposal = Proposal(prohibited: bool, questions: seq<Question>, selected: seq<Source>, skipped: seq<Source>)

  datatype Rejection = UnsafeAction | NoValidQuestion

  /** Stripping surrounding blanks and cutting to 64 characters; what else it does to an id does not matter. */
  type Clean = string -> string

  const MAX_QUESTIONS := 6
  const ID_LENGTH := 64

  function Take<T>(s: seq<T>, n: nat): seq<T> {
    if |s| <= n then s else s[..n]
  }

  function Ids(questions: seq<Question>): (r: seq<string>)
    ensures |r| == |questions| && forall i | 0 <= i < |r| :: r[i] == questions[i].id
    ensures forall q <- questions :: q.id in r
  {
    seq(|questions|, i requires 0 <= i < |questions| => questions[i].id)
  }

  // ----- validation -----

  /** The proposed tools that exist, each once, in the order first named. */
  function ValidTools(tools: seq<Source>, allowed: seq<Source>): (r: seq<Source>)
    ensures NoDuplicates(r) && forall t :: t in r <==> t in tools && t in allowed
  {
    if tools == [] then []
    else
      var before, last := ValidTools(tools[..|tools| - 1], allowed), tools[|tools| - 1];
      assert tools == tools[..|tools| - 1] + [last];
      if last in allowed && last !in before then before + [last] else before
  }

  method FilterTools(tools: seq<Source>, allowed: seq<Source>) returns (output: seq<Source>)
    ensures output == ValidTools(tools, allowed)
  {
    output := [];
    for i := 0 to |tools|
      invariant output == ValidTools(tools[..i], allowed)
    {
      assert tools[..i + 1][..i] == tools[..i];
      if tools[i] in allowed && tools[i] !in output { output := output + [tools[i]]; }
    }
    assert tools[..|tools|] == tools;
  }

  /** The questions kept: those with a source that exists and an id not used before. */
  function ValidQuestions(questions: seq<Question>, allowed: seq<Source>, clean: Clean): (r: seq<Question>)
    ensures |r| <= |questions| && DistinctIds(r)
    ensures forall q <- r ::
              q.id != "" && q.sources != [] && NoDuplicates(q.sources) && forall t <- q.sources :: t in allowed
  {
    if questions == [] then []
    else
      var before, last := ValidQuestions(questions[..|questions| - 1], allowed, clean), questions[|questions| - 1];
      var sources, id := ValidTools(last.sources, allowed), clean(last.id);
      if sources == [] || id == "" || id in Ids(before) then before else before + [Question(id, sources)]
  }

  function Validated(p: Proposal, allowed: seq<Source>, clean: Clean): Result<Proposal, Rejection> {
    if p.prohibited then Failure(UnsafeAction)
    else
      var questions := ValidQuestions(Take(p.questions, MAX_QUESTIONS), allowed, clean);
      if questions == [] then Failure(NoValidQuestion)
      else Success(p.(questions := questions, selected := ValidTools(p.selected, allowed),
                      skipped := ValidTools(p.skipped, allowed)))
  }

  method ValidateGeminiPlan(p: Proposal, allowed: seq<Source>, clean: Clean) returns (r: Result<Proposal, Rejection>)
    ensures r == Validated(p, allowed, clean)
  {
    hide ValidTools, ValidQuestions, NoDuplicates, DistinctIds, Ids;
    if p.prohibited { return Failure(UnsafeAction); }
    NoneValid(allowed, clean);
    var selected := FilterTools(p.selected, allowed);
    var skipped := FilterTools(p.skipped, allowed);
    var questions: seq<Question>, seen: set<string> := [], {};
    var proposed := Take(p.questions, MAX_QUESTIONS);
    for i := 0 to |proposed|
      invariant questions == ValidQuestions(proposed[..i], allowed, clean)
      invariant forall id :: id in seen <==> id in Ids(questions)
    {
      ValidOneMore(proposed, i, allowed, clean);
      var sources := FilterTools(proposed[i].sources, allowed);
      if sources == [] { continue; }
      var id := clean(proposed[i].id);
      if id == "" || id in seen { continue; }
      seen := seen + {id};
      IdsOneMore(questions, Question(id, sources));
      questions := questions + [Question(id, sources)];
    }
    assert proposed[..|proposed|] == proposed;
    if questions == [] { return Failure(NoValidQuestion); }
    return Success(p.(questions := questions, selected := selected, skipped := skipped));
  }

  lemma NoneValid(allowed: seq<Source>, clean: Clean)
    ensures ValidQuestions([], allowed, clean) == [] && Ids([]) == []
  {
  }

  lemma ValidOneMore(questions: seq<Question>, i: nat, allowed: seq<Source>, clean: Clean)
    requires i < |questions|
    ensures var before := ValidQuestions(questions[..i], allowed, clean);
            var sources, id := ValidTools(questions[i].sources, allowed), clean(questions[i].id);
            ValidQuestions(questions[..i + 1], allowed, clean)
            == if sources == [] || id == "" || id in Ids(before) then before else before + [Question(id, sources)]
  {
    hide ValidTools, Ids;
    assert questions[..i + 1][..i] == questions[..i];
  }

  lemma IdsOneMore(questions: seq<Question>, q: Question)
    ensures Ids(questions + [q]) == Ids(questions) + [q.id]
  {
  }

  /** Exactly which proposals are accepted: none of the texts is prohibited, and among the first six questions
      one has both a usable id and a source that exists. */
  lemma {:induction false} SomeQuestionIff(questions: seq<Question>, allowed: seq<Source>, clean: Clean)
    ensures ValidQuestions(questions, allowed, clean) != []
            <==> exists q <- questions :: clean(q.id) != "" && exists t <- q.sources :: t in allowed
  {
    if questions != [] {
      var init, last := questions[..|questions| - 1], questions[|questions| - 1];
      assert questions == init + [last];
      SomeQuestionIff(init, allowed, clean);
      var sources := ValidTools(last.sources, allowed);
      if sources != [] { assert sources[0] in last.sources; }
      assert sources != [] <==> exists t <- last.sources :: t in allowed;
    }
  }

  /** The question names a source that exists, and an id. */
  predicate Usable(q: Question, allowed: seq<Source>, clean: Clean) {
    clean(q.id) != "" && exists t <- q.sources :: t in allowed
  }

  /** Exactly which proposed questions are kept: the usable ones whose id no usable one had before; each keeps those of
      its sources that exist. */
  predicate Kept(questions: seq<Question>, k: nat, allowed: seq<Source>, clean: Clean)
    requires k < |questions|
  {
    && Usable(questions[k], allowed, clean)
    && forall j | 0 <= j < k ::
         Usable(questions[j], allowed, clean) ==> clean(questions[j].id) != clean(questions[k].id)
  }

  lemma QuestionIsKeptIff(questions: seq<Question>, k: nat, allowed: seq<Source>, clean: Clean)
    requires k < |questions|
    ensures var q := questions[k];
            ValidQuestions(questions[..k + 1], allowed, clean) == ValidQuestions(questions[..k], allowed, clean) +
              (if Kept(questions, k, allowed, clean) then [Question(clean(q.id), ValidTools(q.sources, allowed))]
               else [])
    ensures forall t :: t in ValidTools(questions[k].sources, allowed) <==> t in questions[k].sources && t in allowed
  {
    hide Ids, ValidTools, ValidQuestions;
    ValidOneMore(questions, k, allowed, clean);
    KeptIds(questions, k, clean(questions[k].id), allowed, clean);
    SourcesExistIff(questions[k].sources, allowed);
  }

  lemma SourcesExistIff(sources: seq<Source>, allowed: seq<Source>)
    ensures ValidTools(sources, allowed) != [] <==> exists t <- sources :: t in allowed
  {
    hide ValidTools;
    var valid := ValidTools(sources, allowed);
    if valid != [] { assert valid[0] in valid; }
  }

  /** A usable one of the first `count` questions has this id. */
  predicate UsedBefore(questions: seq<Question>, count: nat, id: string, allowed: seq<Source>, clean: Clean)
    requires count <= |questions|
  {
    exists j | 0 <= j < count :: Usable(questions[j], allowed, clean) && clean(questions[j].id) == id
  }

  lemma UsedOneMore(questions: seq<Question>, count: nat, id: string, allowed: seq<Source>, clean: Clean)
    requires count < |questions|
    ensures UsedBefore(questions, count + 1, id, allowed, clean)
            <==> UsedBefore(questions, count, id, allowed, clean)
                 || (Usable(questions[count], allowed, clean) && clean(questions[count].id) == id)
  {
    hide Usable;
  }

  /** The ids kept so far are those of the usable questions. */
  lemma {:induction false} KeptIds(questions: seq<Question>, k: nat, id: string, allowed: seq<Source>, clean: Clean)
    requires k <= |questions|
    ensures id in Ids(ValidQuestions(questions[..k], allowed, clean)) <==> UsedBefore(questions, k, id, allowed, clean)
  {
    if k == 0 {
      NoIdsKept(questions, id, allowed, clean);
    } else {
      hide *;
      KeptIds(questions, k - 1, id, allowed, clean);
      KeptIds(questions, k - 1, clean(questions[k - 1].id), allowed, clean);
      KeptOneMore(questions, k - 1, id, allowed, clean);
      assert k - 1 + 1 == k;
    }
  }

  lemma NoIdsKept(questions: seq<Question>, id: string, allowed: seq<Source>, clean: Clean)
    ensures id !in Ids(ValidQuestions(questions[..0], allowed, clean)) && !UsedBefore(questions, 0, id, allowed, clean)
  {
    hide Ids, ValidQuestions;
    NoneValid(allowed, clean);
    assert questions[..0] == [];
  }

  lemma KeptOneMore(questions: seq<Question>, k: nat, id: string, allowed: seq<Source>, clean: Clean)
    requires k < |questions|
    requires id in Ids(ValidQuestions(questions[..k], allowed, clean)) <==> UsedBefore(questions, k, id, allowed, clean)
    requires var own := clean(questions[k].id);
             own in Ids(ValidQuestions(questions[..k], allowed, clean))
             <==> UsedBefore(questions, k, own, allowed, clean)
    ensures id in Ids(ValidQuestions(questions[..k + 1], allowed, clean))
            <==> UsedBefore(questions, k + 1, id, allowed, clean)
  {
    hide Ids, ValidTools, ValidQuestions, Usable, UsedBefore;
    var q, before := questions[k], ValidQuestions(questions[..k], allowed, clean);
    ValidOneMore(questions, k, allowed, clean);
    IdsOneMore(before, Question(clean(q.id), ValidTools(q.sources, allowed)));
    UsableIff(q, allowed, clean);
    UsedOneMore(questions, k, id, allowed, clean);
  }

  lemma UsableIff(q: Question, allowed: seq<Source>, clean: Clean)
    ensures Usable(q, allowed, clean) <==> ValidTools(q.sources, allowed) != [] && clean(q.id) != ""
  {
    SourcesExistIff(q.sources, allowed);
  }

  // ----- merging -----

  /** The tools selected once the sources of the questions are appended. */
  function WithSources(selected: seq<Source>, questions: seq<Question>): (r: seq<Source>)
    ensures selected <= r && (NoDuplicates(selected) ==> NoDuplicates(r))
    ensures forall t :: t in r <==> t in selected || exists q <- questions :: t in q.sources
  {
    if questions == [] then selected
    else
      var before, last := WithSources(selected, questions[..|questions| - 1]), questions[|questions| - 1];
      assert questions == questions[..|questions| - 1] + [last];
      Append(before, last.sources)
  }

  /** `tools`, then whatever of `more` it lacks. */
  function Append(tools: seq<Source>, more: seq<Source>): (r: seq<Source>)
    ensures tools <= r && (NoDuplicates(tools) ==> NoDuplicates(r))
    ensures forall t :: t in r <==> t in tools || t in more
  {
    if more == [] then tools
    else
      var before, last := Append(tools, more[..|more| - 1]), more[|more| - 1];
      assert more == more[..|more| - 1] + [last];
      if last in before then before else before + [last]
  }

  function Prefixed(id: string): string {
    Take("gemini_" + id, ID_LENGTH)
  }

  /** The base questions followed by the proposed ones, renamed when their id is taken and dropped when that one is
      taken too. */
  function WithQuestions(base: seq<Question>, questions: seq<Question>): (r: seq<Question>)
    ensures base <= r && |r| <= |base| + |questions|
    ensures DistinctIds(base) ==> DistinctIds(r)
  {
    if questions == [] then base
    else
      var before, last := WithQuestions(base, questions[..|questions| - 1]), questions[|questions| - 1];
      var id := if last.id in Ids(before) then Prefixed(last.id) else last.id;
      if id in Ids(before) then before else before + [Question(id, last.sources)]
  }

  function Merged(base: InvestigationPlan, p: Proposal): InvestigationPlan {
    var selected := WithSources(AI.Distinct(base.selected + p.selected), p.questions);
    InvestigationPlan(WithQuestions(base.questions, p.questions), selected, AI.NotIn(base.skipped, selected))
  }

  method MergeTools(base: seq<Source>, questions: seq<Question>) returns (selected: seq<Source>)
    ensures selected == WithSources(base, questions)
  {
    hide WithSources, Append;
    NothingToAppend(base);
    selected := base;
    for i := 0 to |questions|
      invariant selected == WithSources(base, questions[..i])
    {
      var sources := questions[i].sources;
      ghost var before := selected;
      NothingToAppend(before);
      for j := 0 to |sources|
        invariant selected == Append(before, sources[..j])
      {
        AppendOneMore(before, sources[..j], sources[j]);
        assert sources[..j] + [sources[j]] == sources[..j + 1];
        if sources[j] !in selected { selected := selected + [sources[j]]; }
      }
      assert sources[..|sources|] == sources;
      SourcesOneMore(base, questions[..i], questions[i]);
      assert questions[..i] + [questions[i]] == questions[..i + 1];
    }
    assert questions[..|questions|] == questions;
  }

  lemma NothingToAppend(tools: seq<Source>)
    ensures Append(tools, []) == tools && WithSources(tools, []) == tools
  {
  }

  lemma AppendOneMore(tools: seq<Source>, more: seq<Source>, last: Source)
    ensures Append(tools, more + [last]) == if last in Append(tools, more) then Append(tools, more)
                                            else Append(tools, more) + [last]
  {
    assert (more + [last])[..|more|] == more;
  }

  lemma SourcesOneMore(selected: seq<Source>, questions: seq<Question>, last: Question)
    ensures WithSources(selected, questions + [last]) == Append(WithSources(selected, questions), last.sources)
  {
    hide Append;
    assert (questions + [last])[..|questions|] == questions;
  }

  method MergeQuestions(base: seq<Question>, proposed: seq<Question>) returns (questions: seq<Question>)
    ensures questions == WithQuestions(base, proposed)
  {
    questions := base;
    var existing := set q <- questions :: q.id;
    for i := 0 to |proposed|
      invariant questions == WithQuestions(base, proposed[..i])
      invariant forall id :: id in existing <==> id in Ids(questions)
    {
      var q := proposed[i];
      assert proposed[..i + 1][..i] == proposed[..i];
      var id := if q.id !in existing then q.id else Prefixed(q.id);
      if id in existing { continue; }
      existing := existing + {id};
      IdsOneMore(questions, Question(id, q.sources));
      questions := questions + [Question(id, q.sources)];
    }
    assert proposed[..|proposed|] == proposed;
  }

  method Merge(base: InvestigationPlan, p: Proposal) returns (plan: InvestigationPlan)
    ensures plan == Merged(base, p)
  {
    var selected := MergeTools(AI.Distinct(base.selected + p.selected), p.questions);
    var questions := MergeQuestions(base.questions, p.questions);
    plan := InvestigationPlan(questions, selected, AI.NotIn(base.skipped, selected));
  }

  /** What the model's client does when asked for a plan: any exception and any malformed value end in the same
      fallback. */
  datatype PlanReply = Plan(proposal: Proposal) | NoPlan

  function Assisted(enabled: bool, present: bool, reply: PlanReply, base: InvestigationPlan, allowed: seq<Source>,
                    clean: Clean): InvestigationPlan {
    if !enabled || !present || reply.NoPlan? then base
    else
      var v := Validated(reply.proposal, allowed, clean);
      if v.Failure? then base else Merged(base, v.value)
  }

  method MergeGeminiPlan(enabled: bool, present: bool, reply: PlanReply, base: InvestigationPlan, allowed: seq<Source>,
                         clean: Clean)
    returns (plan: InvestigationPlan, fallback: bool)
    ensures plan == Assisted(enabled, present, reply, base, allowed, clean)
    ensures fallback ==> plan == base
    ensures !fallback <==> enabled && present && reply.Plan? && !reply.proposal.prohibited
                           && exists q <- Take(reply.proposal.questions, MAX_QUESTIONS) ::
                                clean(q.id) != "" && exists t <- q.sources :: t in allowed
  {
    if !enabled || !present || reply.NoPlan? { return base, true; }
    SomeQuestionIff(Take(reply.proposal.questions, MAX_QUESTIONS), allowed, clean);
    var v := ValidateGeminiPlan(reply.proposal, allowed, clean);
    if v.Failure? { return base, true; }
    plan := Merge(base, v.value);
    fallback := false;
  }

  // ----- what merging keeps -----

  lemma DistinctFacts(base: seq<Source>, more: seq<Source>)
    ensures NoDuplicates(AI.Distinct(base + more))
    ensures NoDuplicates(base) ==> base <= AI.Distinct(base + more)
  {
    hide NoDuplicates, AI.Distinct;
    DistinctOnce(base + more);
    if NoDuplicates(base) { DistinctKeepsFront(base, more); }
  }

  lemma {:induction false} DistinctOnce(tools: seq<Source>)
    ensures NoDuplicates(AI.Distinct(tools))
  {
    if tools != [] {
      DistinctOnce(tools[..|tools| - 1]);
    }
  }

  lemma {:induction false} DistinctKeepsFront(base: seq<Source>, more: seq<Source>)
    requires NoDuplicates(base)
    ensures base <= AI.Distinct(base + more)
  {
    hide NoDuplicates;
    if more == [] {
      assert base + more == base;
      DistinctIsShort(base);
    } else {
      assert (base + more)[..|base + more| - 1] == base + more[..|more| - 1];
      DistinctKeepsFront(base, more[..|more| - 1]);
    }
  }

  lemma {:induction false} DistinctIsShort(tools: seq<Source>)
    ensures |AI.Distinct(tools)| <= |tools|
    ensures NoDuplicates(tools) ==> AI.Distinct(tools) == tools
  {
    if tools != [] {
      DistinctIsShort(tools[..|tools| - 1]);
    }
  }

  /** The plan keeps the deterministic one's tools and questions in front, and skips what that skips and it does not
      select. */
  ghost predicate Extends(base: InvestigationPlan, plan: InvestigationPlan) {
    && base.selected <= plan.selected && NoDuplicates(plan.selected)
    && base.questions <= plan.questions && DistinctIds(plan.questions)
    && (forall t :: t in plan.skipped <==> t in base.skipped && t !in plan.selected)
  }

  /** Whatever the model proposes, the deterministic plan survives: its tools and questions stay in front, in order,
      question ids stay distinct, and nothing is both selected and skipped. Everything added exists, and everything an
      added question needs is selected. */
  lemma AssistanceOnlyAdds(enabled: bool, present: bool, reply: PlanReply, base: InvestigationPlan,
                           allowed: seq<Source>, clean: Clean)
    requires NoDuplicates(base.selected) && DistinctIds(base.questions)
             && forall t <- base.skipped :: t !in base.selected
    ensures var plan := Assisted(enabled, present, reply, base, allowed, clean);
            && Extends(base, plan)
            && (forall t <- plan.selected :: t in base.selected || t in allowed)
            && (forall i | |base.questions| <= i < |plan.questions| ::
                  plan.questions[i].sources != []
                  && forall t <- plan.questions[i].sources :: t in plan.selected && t in allowed)
  {
    if enabled && present && reply.Plan? && Validated(reply.proposal, allowed, clean).Success? {
      var v := Validated(reply.proposal, allowed, clean).value;
      DistinctFacts(base.selected, v.selected);
      AddedComeFromProposal(base.questions, v.questions);
      hide ValidTools, ValidQuestions, WithSources, WithQuestions, NoDuplicates, DistinctIds, Ids;
      var plan := Merged(base, v);
      assert base.selected <= plan.selected by {
        PrefixIsTransitive(base.selected, AI.Distinct(base.selected + v.selected), plan.selected);
      }
    }
  }

  /** The model's proposal is followed: planning assistance is on, answers, and proposes nothing prohibited and at least
      one usable question among the first six. */
  predicate Followed(enabled: bool, present: bool, reply: PlanReply, allowed: seq<Source>, clean: Clean) {
    && enabled && present && reply.Plan? && !reply.proposal.prohibited
    && exists q <- Take(reply.proposal.questions, MAX_QUESTIONS) :: Usable(q, allowed, clean)
  }

  /** Exactly which tools a followed proposal selects: the deterministic ones, those it selects that exist, and what its
      questions need. Its own list of skipped tools changes nothing. */
  lemma SelectedIff(enabled: bool, present: bool, reply: PlanReply, base: InvestigationPlan, allowed: seq<Source>,
                    clean: Clean, tool: Source)
    ensures var plan := Assisted(enabled, present, reply, base, allowed, clean);
            tool in plan.selected
            <==> || tool in base.selected
                 || (Followed(enabled, present, reply, allowed, clean) && tool in allowed
                     && (tool in reply.proposal.selected
                         || Asking(Take(reply.proposal.questions, MAX_QUESTIONS), tool, allowed, clean)))
    ensures Followed(enabled, present, reply, allowed, clean) ==>
              Assisted(enabled, present, reply, base, allowed, clean)
              == Assisted(enabled, present, Plan(reply.proposal.(skipped := [])), base, allowed, clean)
    ensures !Followed(enabled, present, reply, allowed, clean) ==>
              Assisted(enabled, present, reply, base, allowed, clean) == base
  {
    hide ValidTools, ValidQuestions, WithSources, WithQuestions, NoDuplicates, DistinctIds, Ids, Usable;
    if enabled && present && reply.Plan? {
      var questions := Take(reply.proposal.questions, MAX_QUESTIONS);
      SomeQuestionIff(questions, allowed, clean);
      FollowedIff(questions, allowed, clean);
      AskingIff(questions, tool, allowed, clean);
    }
  }

  lemma FollowedIff(questions: seq<Question>, allowed: seq<Source>, clean: Clean)
    ensures (exists q <- questions :: Usable(q, allowed, clean))
            <==> exists q <- questions :: clean(q.id) != "" && exists t <- q.sources :: t in allowed
  {
  }

  /** A kept question names the tool. */
  predicate Asking(questions: seq<Question>, tool: Source, allowed: seq<Source>, clean: Clean) {
    exists k | 0 <= k < |questions| :: Kept(questions, k, allowed, clean) && tool in questions[k].sources
  }

  lemma {:induction false} AskingUpTo(questions: seq<Question>, count: nat, tool: Source, allowed: seq<Source>,
                                      clean: Clean)
    requires count <= |questions| && tool in allowed
    ensures (exists q <- ValidQuestions(questions[..count], allowed, clean) :: tool in q.sources)
            <==> exists k | 0 <= k < count :: Kept(questions, k, allowed, clean) && tool in questions[k].sources
  {
    hide ValidTools, ValidQuestions, Kept, DistinctIds;
    if count == 0 {
      NoneValid(allowed, clean);
      assert questions[..0] == [];
    } else {
      AskingUpTo(questions, count - 1, tool, allowed, clean);
      QuestionIsKeptIff(questions, count - 1, allowed, clean);
      var before := ValidQuestions(questions[..count - 1], allowed, clean);
      var q := questions[count - 1];
      var kept := Question(clean(q.id), ValidTools(q.sources, allowed));
      assert (before + [kept])[|before|] == kept;
      assert forall x :: x in before + [kept] <==> x in before || x == kept;
      assert before + [] == before;
    }
  }

  lemma AskingIff(questions: seq<Question>, tool: Source, allowed: seq<Source>, clean: Clean)
    ensures tool in allowed ==>
              ((exists q <- ValidQuestions(questions, allowed, clean) :: tool in q.sources)
               <==> Asking(questions, tool, allowed, clean))
    ensures forall q <- ValidQuestions(questions, allowed, clean), t <- q.sources :: t in allowed
  {
    hide ValidTools, ValidQuestions, Kept, DistinctIds;
    assert questions[..|questions|] == questions;
    if tool in allowed { AskingUpTo(questions, |questions|, tool, allowed, clean); }
  }

  lemma PrefixIsTransitive<T>(a: seq<T>, b: seq<T>, c: seq<T>)
    requires a <= b <= c
    ensures a <= c
  {
  }

  predicate Asks(questions: seq<Question>, sources: seq<Source>) {
    exists q <- questions :: q.sources == sources
  }

  lemma {:induction false} AddedComeFromProposal(base: seq<Question>, questions: seq<Question>)
    ensures forall i | |base| <= i < |WithQuestions(base, questions)| ::
              Asks(questions, WithQuestions(base, questions)[i].sources)
  {
    if questions != [] {
      var init, last := questions[..|questions| - 1], questions[|questions| - 1];
      assert questions == init + [last];
      AddedComeFromProposal(base, init);
      var before, r := WithQuestions(base, init), WithQuestions(base, questions);
      forall i | |base| <= i < |r| ensures Asks(questions, r[i].sources) {
        if i < |before| {
          assert Asks(init, before[i].sources);
        } else {
          assert last in questions && r[i].sources == last.sources;
        }
      }
    }
  }

  const PREFIX := "gemini_"

  /** Ids that cannot collide with a renamed one. */
  predicate Plain(id: string) {
    |id| <= ID_LENGTH - |PREFIX| && !(PREFIX <= id)
  }

  /** Where the ids of a merge so far come from. */
  ghost predicate FromPlanOrProposal(ids: seq<string>, base: seq<Question>, questions: seq<Question>) {
    forall id <- ids :: id in Ids(base) || exists q <- questions :: id == q.id || id == PREFIX + q.id
  }

  lemma RenamedIsNew(base: seq<Question>, questions: seq<Question>, id: string, ids: seq<string>)
    requires FromPlanOrProposal(ids, base, questions)
    requires forall q <- base + questions :: Plain(q.id)
    requires forall q <- questions :: q.id != id
    ensures PREFIX + id !in ids
  {
    var renamed := PREFIX + id;
    assert PREFIX <= renamed;
    forall q | q in base || q in questions ensures renamed != q.id && (q in questions ==> renamed != PREFIX + q.id) {
      assert q in base + questions;
      if renamed == PREFIX + q.id {
        assert q.id == renamed[|PREFIX|..] == id;
      }
    }
  }

  predicate Asked(asked: seq<Question>, q: Question) {
    Question(q.id, q.sources) in asked || Question(PREFIX + q.id, q.sources) in asked
  }

  /** One more proposed question, when its renamed id is free: it is appended under one of its two ids. */
  lemma AskedOneMore(base: seq<Question>, questions: seq<Question>, last: Question)
    requires Plain(last.id) && PREFIX + last.id !in Ids(WithQuestions(base, questions))
    ensures var before, after := WithQuestions(base, questions), WithQuestions(base, questions + [last]);
            exists id :: (id == last.id || id == PREFIX + last.id) && after == before + [Question(id, last.sources)]
  {
    hide Ids;
    assert (questions + [last])[..|questions|] == questions;
    var before := WithQuestions(base, questions);
    assert Prefixed(last.id) == PREFIX + last.id;
    var id := if last.id in Ids(before) then Prefixed(last.id) else last.id;
    assert WithQuestions(base, questions + [last]) == before + [Question(id, last.sources)];
  }

  lemma OriginsOneMore(ids: seq<string>, base: seq<Question>, questions: seq<Question>, last: Question, id: string)
    requires FromPlanOrProposal(ids, base, questions) && (id == last.id || id == PREFIX + last.id)
    ensures FromPlanOrProposal(ids + [id], base, questions + [last])
  {
    hide Ids;
    var all := questions + [last];
    assert last in all && forall q <- questions :: q in all;
  }

  /** A validated question is lost only through its own or a planned id that already looks renamed, or one too long to
      rename: otherwise every question of the proposal is asked, under its own id or the renamed one. */
  lemma {:induction false} NoQuestionIsLost(base: seq<Question>, questions: seq<Question>)
    requires DistinctIds(questions)
    requires forall q <- base + questions :: Plain(q.id)
    ensures |WithQuestions(base, questions)| == |base| + |questions|
    ensures forall q <- questions :: Asked(WithQuestions(base, questions), q)
    ensures FromPlanOrProposal(Ids(WithQuestions(base, questions)), base, questions)
  {
    if questions == [] {
      NothingProposed(base);
    } else {
      hide WithQuestions, Ids, FromPlanOrProposal, Plain;
      var init, last := questions[..|questions| - 1], questions[|questions| - 1];
      assert questions == init + [last];
      assert last in base + questions && forall q <- base + init :: q in base + questions;
      NoQuestionIsLost(base, init);
      var before := WithQuestions(base, init);
      RenamedIsNew(base, init, last.id, Ids(before));
      AskedOneMore(base, init, last);
      var id :| (id == last.id || id == PREFIX + last.id)
                && WithQuestions(base, questions) == before + [Question(id, last.sources)];
      IdsOneMore(before, Question(id, last.sources));
      OriginsOneMore(Ids(before), base, init, last, id);
    }
  }

  // ----- exactly which questions are lost -----

  /** The id of the `k`-th proposed question is taken when its turn comes: by the plan, by an earlier proposed question,
      or by an earlier one that was renamed to it. */
  predicate Renamed(base: seq<Question>, questions: seq<Question>, k: nat)
    requires k < |questions|
    decreases k, 0
  {
    || questions[k].id in Ids(base)
    || exists j | 0 <= j < k :: Occupies(base, questions, j, questions[k].id)
  }

  /** The `j`-th proposed question has this id, or is renamed to it. */
  predicate Occupies(base: seq<Question>, questions: seq<Question>, j: nat, id: string)
    requires j < |questions|
    decreases j, 1
  {
    questions[j].id == id || (Prefixed(questions[j].id) == id && Renamed(base, questions, j))
  }

  /** The `k`-th proposed question is lost: both its ids are taken. */
  predicate Lost(base: seq<Question>, questions: seq<Question>, k: nat)
    requires k < |questions|
  {
    && Renamed(base, questions, k)
    && (Prefixed(questions[k].id) in Ids(base)
        || exists j | 0 <= j < k :: Occupies(base, questions, j, Prefixed(questions[k].id)))
  }

  predicate TakenBy(base: seq<Question>, questions: seq<Question>, count: nat, id: string)
    requires count <= |questions|
  {
    id in Ids(base) || exists j | 0 <= j < count :: Occupies(base, questions, j, id)
  }

  lemma TakenOneMore(base: seq<Question>, questions: seq<Question>, count: nat, id: string)
    requires count < |questions|
    ensures TakenBy(base, questions, count + 1, id)
            <==> TakenBy(base, questions, count, id) || Occupies(base, questions, count, id)
  {
    hide Occupies, Ids;
    if Occupies(base, questions, count, id) { assert TakenBy(base, questions, count + 1, id); }
  }

  /** What the next question adds, in terms of the ids taken so far. */
  lemma MergeOneMore(base: seq<Question>, questions: seq<Question>, count: nat)
    requires count < |questions|
    requires forall id: string ::
               id in Ids(WithQuestions(base, questions[..count])) <==> TakenBy(base, questions, count, id)
    ensures var q := questions[count];
            WithQuestions(base, questions[..count + 1]) == WithQuestions(base, questions[..count]) +
              (if Lost(base, questions, count) then []
               else [Question(if Renamed(base, questions, count) then Prefixed(q.id) else q.id, q.sources)])
  {
    hide Occupies, Ids, Prefixed;
    assert questions[..count + 1][..count] == questions[..count];
    var q := questions[count];
    assert Renamed(base, questions, count) <==> TakenBy(base, questions, count, q.id);
    assert Lost(base, questions, count)
           <==> TakenBy(base, questions, count, q.id) && TakenBy(base, questions, count, Prefixed(q.id));
  }

  /** The ids of a merge so far are those of the plan and the ids its questions occupy. */
  lemma {:induction false} IdsAreTaken(base: seq<Question>, questions: seq<Question>, count: nat)
    requires count <= |questions|
    ensures forall id: string ::
              id in Ids(WithQuestions(base, questions[..count])) <==> TakenBy(base, questions, count, id)
  {
    hide Ids, Prefixed, WithQuestions, Occupies, Lost, Renamed;
    if count == 0 {
      NothingProposed(base);
      assert questions[..0] == [];
    } else {
      IdsAreTaken(base, questions, count - 1);
      MergeOneMore(base, questions, count - 1);
      var before, q := WithQuestions(base, questions[..count - 1]), questions[count - 1];
      IdsOneMore(before, Question(q.id, q.sources));
      IdsOneMore(before, Question(Prefixed(q.id), q.sources));
      forall id: string
        ensures id in Ids(WithQuestions(base, questions[..count])) <==> TakenBy(base, questions, count, id) {
        TakenOneMore(base, questions, count - 1, id);
        LostOccupiesNothing(base, questions, count - 1, id);
      }
    }
  }

  /** The ids a question occupies were all taken before if it is lost, and otherwise it brings exactly the one it is
      asked under. */
  lemma LostOccupiesNothing(base: seq<Question>, questions: seq<Question>, k: nat, id: string)
    requires k < |questions|
    ensures var q := questions[k];
            && (Lost(base, questions, k) && Occupies(base, questions, k, id) ==> TakenBy(base, questions, k, id))
            && (!Lost(base, questions, k) ==>
                  (TakenBy(base, questions, k, id) || Occupies(base, questions, k, id)
                   <==>
                     TakenBy(base, questions, k, id)
                     || id == if Renamed(base, questions, k) then Prefixed(q.id) else q.id))
  {
    hide Ids, Prefixed;
    var q := questions[k];
    assert Occupies(base, questions, k, id) <==> q.id == id || (Prefixed(q.id) == id && Renamed(base, questions, k));
    hide Occupies;
    assert Renamed(base, questions, k) <==> TakenBy(base, questions, k, q.id);
    assert Lost(base, questions, k) <==> Renamed(base, questions, k) && TakenBy(base, questions, k, Prefixed(q.id));
  }

  /** Exactly which proposed questions a merge asks, and under which ids: each adds itself, renamed if its id is taken,
      unless the renamed id is taken as well. */
  lemma QuestionIsLostIff(base: seq<Question>, questions: seq<Question>, k: nat)
    requires k < |questions|
    ensures var q := questions[k];
            WithQuestions(base, questions[..k + 1]) == WithQuestions(base, questions[..k]) +
              (if Lost(base, questions, k) then []
               else [Question(if Renamed(base, questions, k) then Prefixed(q.id) else q.id, q.sources)])
  {
    hide Lost, Renamed, Prefixed, WithQuestions, Ids;
    IdsAreTaken(base, questions, k);
    MergeOneMore(base, questions, k);
  }

  /** A merge loses nothing exactly if no question's two ids are both taken. */
  lemma {:induction false} NothingIsLostIff(base: seq<Question>, questions: seq<Question>)
    ensures |WithQuestions(base, questions)| == |base| + |questions|
            <==> forall k | 0 <= k < |questions| :: !Lost(base, questions, k)
  {
    hide Lost, Renamed, WithQuestions;
    LossesUpTo(base, questions, |questions|);
    assert questions[..|questions|] == questions;
  }

  lemma {:induction false} LossesUpTo(base: seq<Question>, questions: seq<Question>, count: nat)
    requires count <= |questions|
    ensures |WithQuestions(base, questions[..count])| <= |base| + count
    ensures |WithQuestions(base, questions[..count])| == |base| + count
            <==> forall k | 0 <= k < count :: !Lost(base, questions, k)
  {
    hide Lost, Renamed, WithQuestions;
    if count == 0 {
      NothingProposed(base);
      assert questions[..0] == [];
    } else {
      LossesUpTo(base, questions, count - 1);
      QuestionIsLostIff(base, questions, count - 1);
    }
  }

  /** A proposal that loses its one question: the plan already asks under both its ids. */
  lemma QuestionCanBeLost()
    ensures var base, proposed := [Question("a", [Jira]), Question("gemini_a", [Jira])], [Question("a", [Pricing])];
            Lost(base, proposed, 0) && WithQuestions(base, proposed) == base
  {
    var base, proposed := [Question("a", [Jira]), Question("gemini_a", [Jira])], [Question("a", [Pricing])];
    assert Ids(base) == ["a", "gemini_a"];
    assert Prefixed("a") == "gemini_a";
    QuestionIsLostIff(base, proposed, 0);
    NothingProposed(base);
    assert proposed[..0] == [] && proposed[..1] == proposed && base + [] == base;
  }

  lemma NothingProposed(base: seq<Question>)
    ensures WithQuestions(base, []) == base && FromPlanOrProposal(Ids(base), base, [])
  {
  }

  // ----- from the plan to the recommendation -----

  lemma RecommendedIsUnblocked(c: Context, r: AI.PlannerResult, evaluate: Evaluator)
    ensures AI.AnalysisOf(c.resource, c.conflicting, r, evaluate).finalStatus == RecommendationReady ==> !PolicyOnly(c)
  {
    hide BuildDecision;
    RecommendationIsEarned(c.resource, c.conflicting, AI.Names(r.executions), r.executions, r.evidence,
                           MissingWithUnresolved(r.evidence, r.unresolved), evaluate);
  }

  /** End to end, whatever one model proposes as a plan and another as actions, and whatever the policy evaluator
      answers: an analysis that recommends a remediation executed every critical tool the change calls for, and each
      left available evidence. */
  lemma RecommendationIsInvestigated(c: Context, base: InvestigationPlan, enabled: bool, present: bool,
                                     reply: PlanReply, clean: Clean,
                                     model: AI.Model, tools: AI.Tools, evaluate: Evaluator)
    requires AI.NoImpersonation(tools) && AI.CriticalToolsReport(tools)
    requires Plans(c, tools.registered, base)
    ensures var plan := Assisted(enabled, present, reply, base, tools.registered, clean);
            var r := AI.PlanResult(model, tools, c.resource, c.conflicting, plan.selected);
            r.Some?
            && AI.AnalysisOf(c.resource, c.conflicting, r.value, evaluate).finalStatus == RecommendationReady ==>
              forall t | IsCritical(t) && t in tools.registered && Relevant(c, t) ::
                && t in AI.Names(r.value.executions)
                && exists e <- r.value.evidence :: e.source == t && e.freshness != Unavailable
  {
    hide AI.NoImpersonation, AI.CriticalToolsReport, AI.PlanResult, AI.AnalysisOf, AI.Names, Relevant, Assisted;
    hide NoDuplicates, DistinctIds;
    var plan := Assisted(enabled, present, reply, base, tools.registered, clean);
    AssistanceOnlyAdds(enabled, present, reply, base, tools.registered, clean);
    AI.RecommendationIsCovered(model, tools, c.resource, c.conflicting, plan.selected, evaluate);
    var r := AI.PlanResult(model, tools, c.resource, c.conflicting, plan.selected);
    if r.Some? && AI.AnalysisOf(c.resource, c.conflicting, r.value, evaluate).finalStatus == RecommendationReady {
      RecommendedIsUnblocked(c, r.value, evaluate);
      forall t | IsCritical(t) && t in tools.registered && Relevant(c, t) ensures t in plan.selected {
        assert t in base.selected;
      }
    }
  }
}
