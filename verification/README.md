# GhostBusters: a verified model

GhostBusters reviews proposed cloud changes. It collects evidence, decides whether a remediation may be recommended,
takes the recommendation through human review to a pull request, and runs cloud hunts on a schedule. This project models
those parts in Dafny and proves what they keep. `dafny verify dfyconfig.toml` checks all of it.

- **Decision pipeline.** `Evidence`, `ConflictDetector`, `AlternativeGenerator`, `Verifier`, `PolicyEngine`, `Confidence`,
  `ReasoningEngine`: from collected evidence to a decision record, and its recalculation under reviewers' actions.
  The policy evaluator is an arbitrary function; the built-in Python policy is one instance (`PythonEvaluator`).
- **Review state machine.** `ReviewWorkflow` gives every service action as a guarded step on a run, `WorkflowRuns` is the
  mutable run object proved against those steps. `Transitions` says which status admits which action and where it leads,
  `Outcomes` how analyses and revisions end, `ReviewSafety` what every reachable state keeps. `RunStores` adds the
  store, its versions and its idempotency keys, and `Starts` the starts that overlap. `DecisionEvents` is the ledger of
  human decisions.
- **Human context.** `HumanContext`, `Comments` and `Overrides`: what a reviewer's comments and evidence requests can and
  cannot change. `Witnesses` holds complete runs for what they can: the plan, the planner's investigation of it, and
  every service call from the created run to the last.
- **Planning and investigation.** `Planner` and `PlanMerge` build the plan, with or without a model's proposal; `AIPlanner`
  is the bounded loop in which an arbitrary model chooses tools, `Replies` says what becomes of each of its replies. The
  results are composed with the decision pipeline.
- **Scheduling.** `Calendar`, `Scheduler`, `ScheduleRules`, `ScheduleProtocol`, `Lease`.
- **Supporting cores.** `Retry`, `RateLimit`, `LoginThrottle`, `CloudHunt` and `HuntCases`, `Members`, `Invitations` and
  `MemberChanges`.

The objects (`WorkflowRun`, `RunStore`, `ScheduleStore`, `CloudHuntService`, `AuthStore`, `DecisionEventStore`) keep a
validity invariant (`Valid`) with the safety facts of their contents; the handlers a service method dispatches to are proved against the step they
perform. An outside answer (a tool, a model, GitHub, a clock, a random draw, a fresh identifier) is a parameter, so each theorem
holds for every answer. Functions over sequences of steps (`Run`, `After`) are folds over arbitrary lists, so statements
about them hold for all runs and interleavings of atomic calls: a store changes its state under one lock. What a caller read
before it got the lock, such as the clock of a schedule's edit, is a parameter that may lag behind. A start is several store
calls, and `Starts` interleaves them.

## Where the code differs from what is said of it

- README.md:273 of the repository says that human context cannot override a production or destructive block, active
  dependencies or critical verifier failures. For comments this holds in every run the services produce
  (`Overrides.CommentOverridesNothing`), except that an arbitrary evaluator may let a recommendation pass whose proposed
  instance type is missing. A destructive block can be lifted by a request for evidence: when exactly is
  `Overrides.EvidenceRequestLiftsBlockIff`, a run is `Witnesses.EvidenceRequestLiftsBlock`. The Python policy
  (`ReasoningEngine.PythonNeverRecommendsDestructive`) and the approval guard (`ReviewSafety.OpenPullRequestIsSafe`) still refuse.
- Every comment is recalculated from the decision stored before it. Over one and the same stored decision, comments never cost
  the approval of the Python policy (`Comments.ContextNeverBlocks`). Against the decision commented on they can. Whether it is
  allowed after that many comments is read off the stored decision by `Comments.CommentsAllowedIff`, on whole runs by
  `Overrides.PythonCommentsOnARun`. So comments deny an allowed decision exactly
  - after a first decision, if its evidence calls for a remediation that does not pass even with the comments, because the owner
    or the proposed type is unknown or the confidence too low: it had fallen back to keeping the change
    (`Comments.CommentsDenyFirstIff`, `Witnesses.CommentBlocksKeptRun`);
  - after an evidence request or an earlier comment, if that waived the block of a destructive change and kept it
    (`Comments.CommentsDenyRecalculatedIff`, `Witnesses.CommentBlocksAfterRequest`, `Witnesses.SecondCommentBlocks`);
  - after a reviewer's modification, if it chose a schedule while a conflict still calls for evidence, or while downsizing comes
    first and its proposed type is unknown (`Comments.CommentsDenyModifiedIff`, `Witnesses.CommentUndoesModification`).
- A recalculation rebuilds the list of missing evidence from the evidence alone and so forgets critical sources that planning
  never collected; a comment can then replace the dependency check, up to an approved pull request
  (`HumanContext.RecalculationForgetsIff`, `Witnesses.ContextReplacesDependencyEvidence`).
- An occurrence of a schedule cannot fire twice while only unforced triggers on current copies get claims. A trigger with an
  outdated copy repeats one exactly if the stored key already names the next run (`ScheduleProtocol.TriggerRepeatsIff`); a forced
  run in between can also lead to a repetition. An edit within the minute of the occurrence just taken, with a rule that names that
  minute, leaves the schedule enabled but unable to fire (`ScheduleProtocol.EditStrandsIff`, `ScheduleProtocol.StrandedNeverFires`).
- `update` reads the clock before it takes the lock. The scheduling theorems hold for edits whose clock is not behind an occurrence
  taken meanwhile, as it cannot be unless a claim came in between (`ScheduleProtocol.PromptUntilClaimed`). Otherwise an edit can
  bring back an occurrence that has fired (`ScheduleProtocol.LaggingEditFiresTwice`; `ScheduleProtocol.EditGoesBackIff` says when).
- A model's question is dropped when both its id and its renamed id are taken (`PlanMerge.QuestionIsLostIff`,
  `PlanMerge.QuestionCanBeLost`).
- The fixed-window limiter accepts up to 2·limit − 1 requests in one window length, and for every limit that is reached.
- A hunt's per-provider waste includes protected candidates, its summary's waste does not. The revocation of a case with a
  remediation pull request is written in the code but cannot be reached.
- Cancelling a run is not final: a comment on a cancelled run that has a decision recalculates it and can make it pending
  again (`Transitions.CancelledUntilCommented`). Reopening alone leads nowhere: a reopened run admits only comments and its
  cancellation (`Transitions.ReopenedUntilCommented`).
- A simulated pull request set once bars every later approval of its run, also after a revocation
  (`Witnesses.RevokedPullRequestBars`). A schedule's simulated pull request can state negative savings
  (`Witnesses.PullRequestCanCost`).
- A plan can name `pricing` and `git_activity` as skipped although they are not registered.
- The last-owner guard also refuses to disable an owner who is disabled already.

## Model

| member | source | states |
|---|---|---|
| Evidence.CriticalMissingIff | core/workflow_service.py:945-957 | the rebuilt list of missing evidence has a critical entry exactly when critical evidence came back unavailable |
| Evidence.LookupSkipsOther | core/evidence_utils.py:14-15 | a first-match lookup is not disturbed by appended items of other sources |
| Evidence.MissingSkipsAvailable | core/workflow_service.py:945-957 | appended available items never add to the missing evidence |
| ConflictDetector.JiraGitClaimIff | core/conflict_detector.py:9-72 | the Jira/Git conflict is reported exactly when Jira says completed while Git is recently active |
| ConflictDetector.ActiveDependencyIsHigh | core/conflict_detector.py:9-72 | active dependencies always leave a high conflict |
| ConflictDetector.ClaimedIff | core/conflict_detector.py:9-72 | each of the five conflicts is reported once, exactly when the evidence disagrees in its way, in a fixed order and with its severity |
| AlternativeGenerator.FirstWithIsFirst | core/mock_pr.py:16-17 | the match the lookup by action returns is the earliest one |
| AlternativeGenerator.DownsizeEligibleIff | core/alternative_generator.py:64-106 | downsizing has no rejection exactly when the resource is unprotected, CPU is fresh and low with peak headroom, price data show savings and no high conflict is open |
| AlternativeGenerator.GeneratedIff | core/alternative_generator.py:17-163 | the generated list holds one alternative per action, a blocking one only for protected resources, and nothing else |
| AlternativeGenerator.EligibleIff | core/alternative_generator.py:64-161 | each action is eligible exactly under the facts that justify it |
| Verifier.CriticalChecks | core/verifier.py:38-126 | which of the twelve checks fail critically, and on what facts |
| Verifier.CriticalFailureIff | core/verifier.py:38-126 | for a remediation, no critical check fails exactly when the recorded facts are defensible; for other actions none ever fails |
| PolicyEngine.RemediationAllowedIff | core/policy_engine.py:18-135 | a remediation is allowed exactly when its facts are defensible, nothing critical is missing, the owner is known and the confidence bound is met |
| PolicyEngine.OtherActionsAllowedIff | core/policy_engine.py:18-135 | when keeping, blocking, abstaining and asking for evidence are allowed, and that only a request for evidence needs context |
| Confidence.FreshItemNeverLowers | core/confidence.py:24-59 | a fresh, fully reliable item never lowers a score computed for the same policy result |
| Confidence.FullConfidenceIff | core/confidence.py:12-59 | full confidence needs complete, reliable, fresh evidence, no conflict and a settled policy, and suffices; a high conflict costs at least a quarter |
| ReasoningEngine.PriorityPicks | core/reasoning_engine.py:31-38 | the first action of the priority order with an eligible alternative wins |
| ReasoningEngine.SelectsExpected | core/reasoning_engine.py:31-38 | selection never raises on a generated list and picks the action the facts determine |
| ReasoningEngine.BuildIsCoherent | core/reasoning_engine.py:57-104 | conflicts, alternatives and findings of a first decision agree with its evidence and preferred action; what its status means is `Outcomes.AnalysisEndsIff` |
| ReasoningEngine.RecalculateIsCoherent | core/workflow_service.py:894-943 | a recalculated decision agrees with itself in the same way; what its status means is `Outcomes.RecalculationEndsIff` |
| ReasoningEngine.ModifiedIsCoherent | core/workflow_service.py:813-863 | so does a decision whose preferred action a reviewer changed |
| Outcomes.AnalysisEndsIff | core/reasoning_engine.py:40-104 | for each status, exactly when a completed analysis is stored with it, from the resource, the facts of the evidence and the evaluator's answers |
| Outcomes.RecalculationEndsIff | core/workflow_service.py:894-943 | the same of every recalculation |
| Outcomes.RevisionEndsIff | core/workflow_service.py:741-811 | the same of the run after every applied evidence request and comment |
| Outcomes.ContextualAnalysisEndsIff | core/workflow_service.py:894-943 | the same of an analysis that starts with a reviewer's context |
| Outcomes.OtherwiseEnds | core/workflow_service.py:160-203 | an analysis that raises fails safely, with a decision only if that was stored before; a skipped one keeps the change |
| Outcomes.AnalysisIsAudited | core/workflow_service.py:160-203 | how many audit events an analysis adds, and the one it closes with |
| Outcomes.PythonAnalysisEnds | core/policy_engine.py:18-135 | under the Python policy the facts alone decide how an analysis ends |
| ReasoningEngine.RecommendationIsEarned | core/reasoning_engine.py:31-104 | for any evaluator, a first recommendation means a safe resource, no active dependency, critical gap or high conflict, and the CPU and savings facts for downsizing |
| ReasoningEngine.GapIsRequested | core/alternative_generator.py:129-146 | a critical gap makes the first decision ask for evidence, whatever the evaluator answers |
| ReasoningEngine.RecalculatedRecommendation | core/workflow_service.py:894-943 | a recalculation keeps those facts, except that a destructive change may get a schedule once evidence was requested |
| ReasoningEngine.DestructiveRecommendationIff | core/workflow_service.py:894-943 | the exact condition under which a recalculation recommends a destructive change |
| ReasoningEngine.PythonNeverRecommendsDestructive | core/policy_engine.py:49-135 | under the Python policy a recalculation never recommends a destructive change |
| ReasoningEngine.CollectMissing | core/reasoning_engine.py:195-219 | the loop records unavailable items, then each unresolved source that left no evidence and has no record yet |
| ReasoningEngine.CriticalGapIff | core/reasoning_engine.py:195-219 | a critical gap is on record exactly when critical evidence failed or was never collected |
| ReasoningEngine.WithUnresolvedGrows | core/reasoning_engine.py:195-219 | records are only added, and none exactly when every unresolved source is accounted for |
| HumanContext.RecalculationForgetsIff | core/workflow_service.py:945-957 | a recalculation drops a critical gap exactly when the gap is a source planning never collected |
| Comments.CommentsSettle | core/workflow_service.py:782-811 | where any number of comments, each on the decision stored by the one before, takes a decision, whatever the evaluators answer in between |
| Comments.ContextCannotMoveOutcome | core/workflow_service.py:782-943 | comments leave conflicts, missing evidence, eligibility, preferred action and findings as a recalculation without any would; the one exception, from the second comment on, is a destructive change whose stored decision asked for evidence its evidence no longer calls for |
| Comments.ProvisionalGrows | core/confidence.py:24-59 | for an action, more comments never lower the confidence handed to the evaluator |
| Comments.LaterCommentsBlockIff | core/workflow_service.py:894-943 | under the Python policy, exactly which decisions the first comment leaves allowed and a later one blocks: destructive changes that were to be kept once evidence was no longer called for |
| Comments.FirstCommentMovesIff | core/reasoning_engine.py:57-104 | the action preferred after the first comment on any first decision, and that it differs exactly if that decision asked for evidence its evidence alone does not call for, asked on behalf of production, or had fallen back |
| Comments.ContextNeverBlocks | core/workflow_service.py:894-943 | under the Python policy a recalculation with any number of comments allows what the same recalculation without them allows |
| Comments.CommentsAllowedIff | core/workflow_service.py:782-943 | for every stored decision, whether it is allowed after that many comments under the Python policy |
| Comments.CommentsDenyFirstIff | core/reasoning_engine.py:57-104 | exactly which allowed first decisions comments deny |
| Comments.CommentsDenyRecalculatedIff | core/workflow_service.py:894-943 | exactly which decisions left allowed by an evidence request or a comment later comments deny |
| Comments.CommentsDenyModifiedIff | core/workflow_service.py:813-863 | exactly which modifications, once allowed, comments deny |
| Overrides.PlannerPrechecks | core/ai_planner.py:118-131 | for a protected resource the planner leaves neither evidence nor gaps, whatever model, tools and plan |
| Overrides.CommentOverridesNothing | core/workflow_service.py:782-811 | in every run the services produce, a run pending after a comment is neither production nor destructive and has no active dependency, high conflict or unavailable critical evidence; which critical check can still fail |
| Overrides.CommentsOnARun | core/workflow_service.py:782-811 | once accepted, comments are never refused in a row, each adds one review record, and the run ends as that many comments settle |
| Overrides.PythonCommentsOnARun | core/workflow_service.py:782-811 | after any number of comments in a row under the Python policy, exactly when the run's decision is allowed |
| Overrides.RequestedLookup | core/workflow_service.py:741-780 | after an evidence request a requested source is read from what was gathered alone, any other from the stored evidence first |
| Overrides.EvidenceRequestLiftsBlockIff | core/workflow_service.py:741-780 | when exactly an evidence request makes a destructive change pending, read off the stored decision, the requested sources and what they returned |
| Witnesses.EvidenceRequestLiftsBlock | core/workflow_service.py:741-780 | a run, for every plan of such an audit, in which it does, whose approval the critical finding still bars |
| Witnesses.SecondCommentBlocks | core/workflow_service.py:782-811 | a run, for every plan of such an audit, in which the second comment blocks what the first one left allowed |
| Witnesses.CommentBlocksAfterRequest | core/workflow_service.py:741-811 | the same audit, in which an evidence request brings nothing and the first comment after it blocks what it left allowed |
| Witnesses.CommentUndoesModification | core/workflow_service.py:782-863 | a run in which a comment denies the schedule a reviewer had chosen |
| Witnesses.CommentBlocksKeptRun | core/reasoning_engine.py:92-104 | a run, its plan included, kept for want of an owner that its first comment turns into a blocked one |
| Witnesses.ContextReplacesDependencyEvidence | core/workflow_service.py:782-811 | a run, its plan included, in which a model stops early and one comment leads to a pull request without the planned dependency check |
| ReviewWorkflow.Log | core/audit.py:11-53 | appending audit events changes nothing else, extends the log and keeps its numbering |
| WorkflowRuns.WorkflowRun.AppendAuditEvent | core/audit.py:30-51 | the object's log gains exactly one event with the next number |
| WorkflowRuns.WorkflowRun.Approve | core/workflow_service.py:663-704 | in place, the object becomes the specified run or the specified refusal is returned |
| WorkflowRuns.WorkflowRun.RejectReview | core/workflow_service.py:637-641 | rejection, likewise: applied exactly to pending runs and those that need evidence, and the run is then rejected with its decision as it was |
| WorkflowRuns.WorkflowRun.RequestMoreEvidence | core/workflow_service.py:741-780 | an evidence request, likewise: named sources are replaced and the decision recalculated |
| WorkflowRuns.WorkflowRun.AddHumanContext | core/workflow_service.py:782-811 | a comment, likewise |
| WorkflowRuns.WorkflowRun.ModifyAction | core/workflow_service.py:813-863 | a changed action, likewise: only an eligible remediation the policy allows |
| WorkflowRuns.WorkflowRun.Revoke | core/workflow_service.py:706-717 | a revocation, likewise |
| WorkflowRuns.WorkflowRun.Reopen | core/workflow_service.py:719-730 | a reopening, likewise |
| WorkflowRuns.WorkflowRun.HandleReviewRequest | core/workflow_service.py:614-661 | the dispatch with its version check becomes the specified run and keeps the safety invariant, or the specified refusal is returned |
| WorkflowRuns.WorkflowRun.CancelGoal | core/workflow_service.py:502-512 | a cancellation, with the same promise |
| WorkflowRuns.WorkflowRun.ExecuteAnalysis | core/workflow_service.py:118-203 | the one analysis of a new run keeps the safety invariant, at both places where it may raise as well |
| ReviewSafety.GuardedDecisionIsDefensible | core/human_review.py:12-26 | a coherent remediation without a failed critical check is defensible on its own evidence |
| ReviewSafety.ApprovalIsSafe | core/workflow_service.py:663-704 | an approval that opens a pull request passed every guard and rests on defensible facts |
| ReviewSafety.StepKeepsInvariant | core/workflow_service.py:614-863 | every step keeps the invariant, extends both logs, adds one version and, for a review, exactly one record |
| ReviewSafety.ReachableInvariant | core/workflow_service.py:614-863 | the invariant holds after any sequence of analysis, reviews and cancellations under any evaluators |
| ReviewSafety.NothingToReview | core/human_review.py:12-65 | before the analysis is stored every review action is refused |
| Transitions.ReviewAppliesIff | core/human_review.py:12-65 | a review action is applied exactly if the run's status is open to it and it comes with what it needs |
| Transitions.ReviewLeadsTo | core/workflow_service.py:631-863 | the status each applied action leads to, its review record, the audit events it adds, and what of the decision and the pull requests it may change |
| Transitions.CancelAppliesIff | core/workflow_service.py:502-512 | which statuses admit a cancellation, and that it touches nothing but the status and the audit trail |
| Transitions.RunWaits | core/workflow_service.py:614-863 | steps a run's status does not admit leave it exactly as it was, however many are tried |
| Transitions.RejectedUntilReopened | core/human_review.py:29-65 | a rejected run changes only by being reopened or cancelled |
| Transitions.OpenPullRequestUntilRevoked | core/workflow_service.py:706-730 | a run with an open pull request changes only by a revocation or a reopening |
| Transitions.ReopenedUntilCommented | core/workflow_service.py:719-730 | a reopened run changes only by a comment or its cancellation |
| Transitions.CancelledUntilCommented | core/human_review.py:46-53 | of the review actions a cancelled run admits exactly comments, and leaves its status with one |
| Transitions.StatusTellsLastReview | core/workflow_service.py:614-863 | in every reachable run the status tells which kind of review came last |
| ReviewSafety.OpenPullRequestIsSafe | core/workflow_service.py:614-863 | any reachable run with an open pull request was approved last, for a remediation of a safe resource without active dependencies or Jira/Git disagreement; `approved` is never stored |
| ReviewSafety.SimulatedPrTells | core/mock_pr.py:20-36 | the simulated pull request carries the approved action and its savings, positive for downsizing; when a schedule's figure is negative |
| Witnesses.PullRequestCanCost | core/mock_pr.py:20-36 | a run whose scheduled pull request states negative savings |
| Witnesses.RevokedPullRequestBars | core/workflow_service.py:706-717 | the same run, revoked and commented on, is pending again and cannot be approved |
| ReviewSafety.HistoryCountsSteps | core/workflow_service.py:631-661 | the version counts applied steps, the review log applied reviews, and audit numbers are 1..n |
| ReviewSafety.HistoryOnlyGrows | core/audit.py:30-51 | logs only extend; a simulated pull request never changes and bars every later approval |
| ReviewSafety.ApprovalAppliesIff | core/human_review.py:12-26 | in every reachable pending scenario run without a pull request, approval opens one exactly when the policy asked for approval and the facts are defensible |
| ReviewSafety.PythonIsRespectful | core/policy_engine.py:49-135 | the Python policy allows nothing over a failed critical check and asks for approval of exactly the remediations |
| ReviewSafety.ApprovalIsNeverStuck | core/workflow_service.py:663-704 | under such evaluators no reachable pending scenario run without a pull request refuses approval |
| RunStores.StoreOverTime | core/run_store.py:44-76 | in any interleaving keys stay unique, runs never vanish or change key or organization, and versions count updates |
| RunStores.OneReviewPerVersion | core/workflow_service.py:631-661 | at most one review request pinned to a version of a run is ever applied |
| RunStores.KeyStaysWithOneRun | core/run_store.py:44-49 | once a run owns a key no other run ever does |
| RunStores.StoredRunIsARun | core/run_store.py:63-76 | each run in a store is the run of its own steps, whatever other runs go through, so what holds of runs holds in stores |
| RunStores.StoreIsSafe | core/workflow_service.py:614-863 | every run of every reachable store keeps the safety invariant; those with an open pull request were approved safely |
| RunStores.RunStore.FindByKey | core/run_store.py:78-98 | the lookup returns an owner in the organization, or there is none |
| RunStores.RunStore.CreateRun | core/run_store.py:44-49 | creation stores the run or refuses a used key, keeping keys unique and runs safe |
| RunStores.RunStore.UpdateRun | core/run_store.py:63-76 | a refused step leaves the store unchanged, an applied one replaces one run by the next version; the store stays safe |
| RunStores.ApplyUpdater | core/run_store.py:71-75 | the updater works on a copy, whose version is then one more |
| RunStores.StoreCallAppliesIff | core/run_store.py:44-76 | exactly when a creation and an update are applied, and that empty keys are free for all |
| RunStores.WorkflowService.StartRun | core/workflow_service.py:118-203 | a start nobody interleaves with: the returned run owns the key, is new exactly when nobody owned it, and the call fails exactly when another organization does |
| RunStores.WorkflowService.ReviewStored | core/workflow_service.py:614-661 | for every call, whether it raises and what, whether it returns the run untouched, and the store it leaves |
| RunStores.WorkflowService.CancelStored | core/workflow_service.py:502-512 | one applied cancellation, or the refusal and an unchanged store |
| Starts.AlwaysConsistent | core/workflow_service.py:118-203 | where every start stands agrees with the store in every interleaving of their store calls with reviews and cancellations |
| Starts.StartsAgree | core/workflow_service.py:125-158 | overlapping starts that succeed with one key in one organization return the same run, and at most one says it created it |
| Starts.OneRunPerKey | core/run_store.py:44-49 | one run is stored per key, created by exactly one start |
| Starts.RefusedOverOthersKey | core/workflow_service.py:149-156 | a scenario start fails only over a key another organization holds |
| Starts.EventsTakeEffect | core/workflow_service.py:118-203 | a start begins by looking for its key, and reviews in between are tried on the store as it then is |
| Starts.StartsFinish | core/workflow_service.py:118-203 | every start finishes after at most three of its own store calls, whatever comes in between |
| Starts.OverlappingStoreIsSafe | core/workflow_service.py:614-863 | whatever overlaps, stored runs with an open pull request were approved safely |
| DecisionEvents.DecisionEventStore.Append | core/decision_events.py:75-130 | a new key adds one event, a repeated request returns the stored one, a different request under the key is refused |
| DecisionEvents.DecisionEventStore.Replay | core/decision_events.py:57-73 | the recorded response of a repeated request, nothing for an unused key, and a refusal for another request under the key |
| DecisionEvents.DecisionEventStore.LatestForCase | core/decision_events.py:150-162 | the result is the last matching event of the log, or nothing matches |
| DecisionEvents.LatestAfterRequest | core/decision_events.py:150-162 | the latest event of a case is that of its last new request |
| DecisionEvents.LedgerOnlyGrows | core/decision_events.py:75-130 | over any requests the log only extends, with one event per key |
| DecisionEvents.FirstAnswerStands | core/decision_events.py:57-130 | after any later requests a repeated one is still answered and replayed with the first event, any other under its key refused |
| DecisionEvents.KeysAreScoped | core/decision_events.py:75-130 | a key is used exactly when some request of the same organization used it |
| AIPlanner.CollectEvidence | core/investigator.py:38-127 | one record per tool in order, and an unavailable item under its own name for each that failed or is unknown |
| AIPlanner.DeterministicResult | core/ai_planner.py:258-327 | completion runs exactly the planned tools not executed yet |
| AIPlanner.Plan | core/ai_planner.py:118-256 | the bounded loop computes the specified investigation for every sequence of replies; what becomes of each reply is stated in `Replies` |
| AIPlanner.PlanCovers | core/ai_planner.py:173-327 | off the hard precheck every planned tool is executed or named unresolved; the precheck runs nothing |
| AIPlanner.NeverPrecheck | core/ai_plan_validator.py:23-61 | a finish accepted from the model leaves no planned tool out |
| Replies.AcceptsIff | core/ai_plan_validator.py:23-61 | exactly which replies are refused: prohibited texts, unregistered tools, repetitions without a reason, early finishes, unclear questions, and stopping with nothing to show |
| Replies.RefusalCompletesThePlan | core/ai_planner.py:173-256 | a refused reply, a client's error and the last step end in the completed plan, with all of it run and nothing run twice for that |
| Replies.AcceptedReplyIsFollowed | core/ai_planner.py:173-256 | an accepted call runs exactly that tool and goes on; any other accepted reply stops at once with nothing run |
| Replies.PlanFollowsSafeReplies | core/ai_plan_validator.py:23-35 | over whole investigations, every tool on record was planned or called by a safe reply, and only a safe reply stopped one |
| Replies.RepeatsNeedFailure | core/ai_plan_validator.py:36-45 | over whole investigations, a tool is repeated only after it left unavailable evidence, unless the goal asks for fresh evidence |
| AIPlanner.PlanHonest | core/investigator.py:38-127 | critical evidence comes only from executed tools, and each executed one that reports leaves evidence |
| AIPlanner.AnalyzeResource | core/reasoning_engine.py:140-192 | the analysis after planning, or an exception of the model's client; without a configuration, the whole plan is run |
| AIPlanner.RecommendationIsCovered | core/ai_planner.py:173-327 | for any model and evaluator, a recommendation means every planned critical tool ran and none of its evidence is unavailable |
| AIPlanner.CriticalGapForcesRequest | core/alternative_generator.py:129-146 | a planned critical tool that never ran, or failed critical evidence, makes the analysis ask for evidence |
| AIPlanner.UnconfiguredIsCovered | core/reasoning_engine.py:154-159 | the analysis without a configuration recommends only on available critical evidence and for unprotected resources as well |
| Planner.CreateInvestigationPlan | core/planner.py:27-173 | exactly the relevant registered tools are selected; selected and skipped partition the registered normal tools; ids are distinct and each selected tool answers a question |
| Planner.SelectGroup | core/planner.py:89-130 | the tools a word of the goal brings in are added once each, with their questions, if registered |
| Planner.SkipRest | core/planner.py:161-164 | exactly the registered normal tools left over are skipped, once each |
| Planner.PlansAgree | core/planner.py:84-173 | the promise leaves no freedom in what is selected and skipped |
| Planner.ToolIsPlannedIff | core/planner.py:84-159 | tool by tool, the exact condition under which a plan selects it |
| PlanMerge.FilterTools | core/gemini_planning.py:142-150 | the proposed tools that exist, each once, in the order first named |
| PlanMerge.ValidQuestions | core/gemini_planning.py:127-136 | kept questions have distinct, non-empty ids and existing, non-repeating sources |
| PlanMerge.ValidateGeminiPlan | core/gemini_planning.py:115-139 | the validation loops compute the specified proposal or rejection |
| PlanMerge.SomeQuestionIff | core/gemini_planning.py:127-138 | some question survives exactly when one has a usable id and a source that exists |
| PlanMerge.QuestionIsKeptIff | core/gemini_planning.py:115-139 | exactly which proposed questions survive validation, and with which sources |
| PlanMerge.Merge | core/gemini_planning.py:153-182 | the merge loops compute the specified plan |
| PlanMerge.MergeGeminiPlan | core/gemini_planning.py:67-112 | the deterministic plan is used unchanged exactly when assistance is off, fails, is prohibited or has no valid question |
| PlanMerge.AssistanceOnlyAdds | core/gemini_planning.py:153-182 | the deterministic tools and questions stay in front, nothing is both selected and skipped, and what added questions need is selected |
| PlanMerge.SelectedIff | core/gemini_planning.py:67-182 | exactly which tools the plan selects: the deterministic ones and, if the proposal is followed, its existing tools and what its questions need |
| PlanMerge.NoQuestionIsLost | core/gemini_planning.py:159-171 | with ids that cannot collide with renamed ones, every proposed question is asked, under its own or the renamed id |
| PlanMerge.QuestionIsLostIff | core/gemini_planning.py:159-171 | what each proposed question adds to the merge: it is dropped exactly if its own and its renamed id are both taken, in terms of the planned and the earlier proposed ids |
| PlanMerge.NothingIsLostIff | core/gemini_planning.py:159-171 | every proposed question is asked exactly if none is dropped in that way |
| PlanMerge.QuestionCanBeLost | core/gemini_planning.py:159-171 | a proposal that loses its question |
| PlanMerge.RecommendationIsInvestigated | core/reasoning_engine.py:140-192 | end to end, a recommendation means every critical tool the change calls for ran and left available evidence |
| Calendar.NextDayIsNext | core/cloud_hunt_scheduler.py:28-46 | the day after, across months, leap years and centuries, has the next day number |
| Calendar.OrdinalIsOrdered | core/cloud_hunt_scheduler.py:28-46 | day numbers follow calendar order |
| Calendar.FromOrdinalInverts | core/cloud_hunt_scheduler.py:28-46 | day numbers and dates convert into each other without loss |
| Calendar.NextOccurrence | core/cloud_hunt_scheduler.py:28-46 | the least matching wall-clock minute strictly after the given one, always a valid date |
| Calendar.WeeklyIsNext | core/cloud_hunt_scheduler.py:37-40 | the same for the weekday shift |
| Calendar.MonthlyIsNext | core/cloud_hunt_scheduler.py:41-46 | the same for the month carry, days being at most 28 |
| Scheduler.NextRunIsNext | core/cloud_hunt_scheduler.py:28-46 | in UTC the next run is a whole minute after the current one and no matching minute comes before it |
| Scheduler.NextRunIsNowIff | core/cloud_hunt_scheduler.py:72-79 | planning from the minute before lands on a past occurrence exactly if that is the current minute and the rule names it |
| Scheduler.ScheduleStore.CreateSchedule | core/cloud_hunt_scheduler.py:65-70 | the new item, and nothing else changed |
| Scheduler.ScheduleStore.UpdateSchedule | core/cloud_hunt_scheduler.py:72-79 | the edited item, or the refusal over version, organization or an active run; schedules stay sound, as in every row of this store |
| Scheduler.ScheduleStore.Toggle | core/cloud_hunt_scheduler.py:81-85 | only the switch and the version change |
| Scheduler.ScheduleStore.Claim | core/cloud_hunt_scheduler.py:87-91 | the claim is taken or refused as `Scheduler.ClaimTakenIff` says, never on a schedule that is off, and a refusal changes nothing |
| Scheduler.ScheduleStore.FinishRun | core/cloud_hunt_scheduler.py:93-96 | the item is idle again with a recomputed next run |
| Scheduler.ScheduleStore.Delete | core/cloud_hunt_scheduler.py:98-102 | only the idle item disappears |
| Scheduler.Trigger | core/cloud_hunt_scheduler.py:149-180 | a claimed trigger leaves the schedule idle with a later next run whether the hunt returns or fails |
| Scheduler.RunDue | core/cloud_hunt_scheduler.py:182-188 | every listed due schedule that is on fires exactly once; those that are off and all others are untouched |
| Scheduler.SwitchedOffIsRefused | core/cloud_hunt_scheduler.py:87-91 | a schedule that is switched off is never claimed, not even by force |
| Scheduler.ClaimTakenIff | core/cloud_hunt_scheduler.py:87-91 | exactly when a claim is taken, and what it changes |
| Scheduler.FiredIff | core/cloud_hunt_scheduler.py:182-188 | which schedules a pass over the due ones touches |
| ScheduleRules.EditedIff | core/cloud_hunt_scheduler.py:72-79 | exactly when an edit is applied, the schedule it leaves, and what each refusal means |
| ScheduleRules.ToggledIff | core/cloud_hunt_scheduler.py:81-85 | the same of a toggle |
| ScheduleRules.FinishedIff | core/cloud_hunt_scheduler.py:93-96 | the same of a finish |
| ScheduleRules.DeletedIff | core/cloud_hunt_scheduler.py:98-102 | the same of a deletion |
| ScheduleRules.CreatedThenDeleted | core/cloud_hunt_scheduler.py:65-102 | what creating stores, and that deleting it restores the store |
| ScheduleRules.ClaimErrs | core/cloud_hunt_scheduler.py:87-91 | only a claim of a schedule out of reach is an error |
| ScheduleProtocol.ClaimExcludesEdits | core/cloud_hunt_scheduler.py:72-102 | one worker per schedule; between claim and finish no update or delete is applied, and the finish finds the schedule |
| ScheduleProtocol.OccurrencesNeverGoBack | core/cloud_hunt_scheduler.py:65-97 | occurrences taken by unforced claims never decrease, in any run whose edits are not behind an occurrence taken since they read the clock |
| ScheduleProtocol.PromptUntilClaimed | core/cloud_hunt_scheduler.py:72-79 | a clock reading stays good enough for an edit until its schedule is claimed |
| ScheduleProtocol.EditGoesBackIff | core/cloud_hunt_scheduler.py:72-79 | an edit goes behind an occurrence exactly if its rule names a minute between its clock reading and the occurrence |
| ScheduleProtocol.LaggingEditFiresTwice | core/cloud_hunt_scheduler.py:72-91 | a run in which a lagging edit brings back an occurrence that had fired |
| ScheduleProtocol.NoOccurrenceFiresTwice | core/cloud_hunt_scheduler.py:65-188 | while only unforced triggers on current copies get claims, the occurrences of a schedule strictly increase, whatever edits, toggles and refused triggers come between |
| ScheduleProtocol.RunKeepsKeyed | core/cloud_hunt_scheduler.py:87-97 | the stored key goes on naming the latest occurrence of a schedule until a forced run or an outdated copy gets a claim |
| ScheduleProtocol.OffIsNeverClaimed | core/cloud_hunt_scheduler.py:65-91 | between being switched off and being switched on again a schedule is never claimed, in any run |
| ScheduleProtocol.SwitchedOff | core/cloud_hunt_scheduler.py:65-85 | creating, editing and toggling it off do switch it off |
| ScheduleProtocol.TriggerRepeatsIff | core/cloud_hunt_scheduler.py:87-160 | after such a run an unforced trigger repeats an occurrence exactly if the stored key names the next run and its copy shows another |
| ScheduleProtocol.StrandedNeverFires | core/cloud_hunt_scheduler.py:87-91 | a schedule whose next run is already taken never fires again without an edit or a forced run |
| ScheduleProtocol.EditStrandsIff | core/cloud_hunt_scheduler.py:72-91 | an edit causes that exactly when it is made within the minute of the occurrence just taken and its rule names that minute |
| ScheduleProtocol.FiredThenEdited | core/cloud_hunt_scheduler.py:72-97 | a run in which that happens |
| ScheduleProtocol.StaleCopyFiresTwice | core/cloud_hunt_scheduler.py:149-160 | a run in which a copy listed earlier in it repeats an occurrence |
| ScheduleProtocol.ForcedRunFiresTwice | core/cloud_hunt_scheduler.py:149-160 | a run in which a forced run in between lets one be repeated |
| Lease.DistributedScheduleLease.Acquire | core/cloud_hunt_scheduler.py:199-203 | acquired exactly when no live entry exists; an unreachable store counts as not acquired |
| Lease.DistributedScheduleLease.Release | core/cloud_hunt_scheduler.py:205-211 | only the holder's own live entry is deleted |
| Lease.HolderKeepsLease | core/cloud_hunt_scheduler.py:191-211 | whatever other workers do, a lease stays with its holder until it expires |
| Lease.AcquisitionsAreApart | core/cloud_hunt_scheduler.py:191-211 | two acquisitions without a release are at least one lifetime apart |
| Lease.LeaseLastsItsLifetime | core/cloud_hunt_scheduler.py:191-211 | a lease ends exactly with its lifetime or its holder's release |
| Lease.ExpiredReleaseIsHarmless | core/cloud_hunt_scheduler.py:205-211 | the late release of an expired holder never deletes its successor's lease |
| Retry.RunAttempt | core/retry.py:152-255 | one pass of the attempt loop as specified; how passes end a call is `Retry.CallEndsWith` |
| Retry.Execute | core/retry.py:135-262 | the loop computes the specified execution and its exhausted flag; when it delivers is `Retry.DeliveredIff` |
| Retry.CallEndsWith | core/retry.py:135-262 | how every call ends, read off the one attempt that decides it: delivered, passed on, cancelled or given up |
| Retry.SomeAttemptDecides | core/retry.py:135-262 | every call has such an attempt |
| Retry.DeliveredIff | core/retry.py:165-212 | a call is delivered exactly if an attempt answers in time after others that were worth retrying |
| Retry.CategoriesTell | core/retry.py:264-330 | what each failure category tells of the exception, and which exceptions are retried |
| Retry.EventsRecordCalls | core/retry.py:135-262 | the events number the calls 1, 2, 3 and announce exactly the delays slept, but for one that was cancelled |
| Retry.EventsFormTrace | core/retry.py:135-262 | for any outcomes and cancellations the events are rounds of started, failed, scheduled and one closing tail |
| Retry.CallsAndSleepsAreBounded | core/retry.py:135-262 | at most the configured calls, one if not idempotent, and at most one maximal delay between two |
| Retry.ExhaustedIff | core/retry.py:228-262 | exhausted exactly when several attempts were allowed and all ran and failed retryably |
| Retry.StatusRetriedIff | core/retry.py:293-330 | exactly the six listed status codes are retried and use a server's hint |
| Retry.HintIsHonoured | core/retry.py:332-339 | a server's hint is waited out up to the maximum |
| Retry.DelaysGrow | core/retry.py:332-339 | without a hint a later attempt never waits less |
| RateLimit.RateLimiter.Check | core/rate_limit.py:36-41 | the window that counts the request, and acceptance while its count is within the limit |
| RateLimit.FewerThanTwiceTheLimit | core/rate_limit.py:36-41 | for every history, at most 2·limit − 1 acceptances in any half-open interval of one window |
| RateLimit.BoundIsTight | core/rate_limit.py:36-41 | for every limit and window a history that reaches it |
| LoginThrottle.Authenticate | app/auth.py:517-529 | the kept failures are those in the window, by the clock as read for each, plus this one; sign-in is tried only below the limit |
| LoginThrottle.LogIsRecentRecord | app/auth.py:517-529 | forgetting loses no failure the window still covers when the sign-in ends |
| LoginThrottle.FailuresPerWindow | app/auth.py:517-529 | no window of one length holds more recorded failures than the configured attempts |
| CloudHunt.Summarize | core/cloud_hunt_service.py:368-387 | the provider lookup never misses, and the table counts each provider's resources and candidates |
| CloudHunt.BreakdownAddsUp | core/cloud_hunt_service.py:368-387 | provider counters add up to the totals; provider waste also includes protected candidates |
| CloudHunt.OneCasePerCandidate | core/cloud_hunt_service.py:276-308 | exactly one new case per candidate, every old case untouched |
| CloudHunt.SelectedIff | core/cloud_hunt_service.py:97-128 | a resource becomes a candidate exactly when it is suspicious and no waiver is active |
| CloudHunt.NewCaseOpens | core/cloud_hunt_service.py:276-308 | the status a case opens with |
| CloudHunt.CloudHuntService.StartHunt | core/cloud_hunt_service.py:65-138 | cases created, investigations and candidates agree, and healthy plus candidates is the total |
| CloudHunt.CloudHuntService.ActOnCase | core/cloud_hunt_service.py:198-257 | the case, the waivers and nothing else change as specified, or the refusal changes nothing; all cases stay sound and every waived one has a waiver |
| CloudHunt.CaseStaysSafe | core/cloud_hunt_service.py:198-257 | over any actions a protected candidate gets no pull request or remediation status, a remediation pull request implies a Terraform address, and the version counts applied actions |
| CloudHunt.ActOnKeepsSound | core/cloud_hunt_service.py:198-257 | each action keeps a case sound, from any sound case |
| CloudHunt.WaivedIsAbsorbing | core/cloud_hunt_service.py:198-257 | a waived case never changes again |
| CloudHunt.RevocableIff | core/cloud_hunt_service.py:198-257 | only an unmapped proposal can ever be revoked |
| HuntCases.ActionAppliesIff | core/cloud_hunt_service.py:198-257 | exactly when an action on a case is applied, the status it leads to, and what else it changes |
| HuntCases.RefusalTells | core/cloud_hunt_service.py:198-257 | which refusal an action meets |
| HuntCases.ProtectedIff | core/cloud_hunt_service.py:363-366 | a candidate is protected exactly by a dependency, production or recent activity |
| HuntCases.CaseWaits | core/cloud_hunt_service.py:198-257 | actions a case's status does not admit leave it as it was |
| HuntCases.RejectedUntilReopened | core/cloud_hunt_service.py:198-257 | a rejected case, and one with a remediation pull request, changes only by being reopened |
| Members.AuthStore.RegisterOwner | app/auth.py:464-515 | registration adds user, organization and owner together, or a failure takes all of it out again; owners, memberships and indexes stay valid, as in every row of this store |
| Members.AuthStore.InviteMember | app/auth.py:553-586 | an invitation is stored, or refused over its role, an active member or a pending one |
| Members.AuthStore.AcceptInvitation | app/auth.py:610-659 | what acceptance leaves behind, also when it is refused half way |
| Members.AuthStore.ChangeMemberRole | app/auth.py:690-709 | one role changes, or the refusal changes nothing |
| Members.AuthStore.DisableMember | app/auth.py:730-739 | one membership is disabled, or the refusal changes nothing |
| Members.AuthStore.ReactivateMember | app/auth.py:741-748 | one membership is active again |
| Members.AlwaysAnOwner | app/auth.py:464-748 | over any calls an organization once registered keeps an active owner, nobody holds two memberships in one, and the user indexes agree |
| Members.OwnersComeFromOwners | app/auth.py:690-709 | a new owner registered the organization or was appointed by one of its owners |
| Members.LastOwnerGuardNeededIff | app/auth.py:730-739 | the last-owner refusal prevents an ownerless organization exactly when the membership is active |
| MemberChanges.RegisteredIff | app/auth.py:464-515 | exactly when an owner registers, what is then stored, and what each refusal means |
| MemberChanges.RoleChangesIff | app/auth.py:690-709 | exactly when a role changes, that nothing else does, and what each refusal means |
| MemberChanges.DisabledIff | app/auth.py:730-739 | exactly when a membership is disabled |
| MemberChanges.ReactivatedIff | app/auth.py:741-748 | exactly when one is reactivated |
| MemberChanges.ChangesAreUndone | app/auth.py:690-748 | reactivating undoes disabling, and a role can be changed back |
| Invitations.IssuedIff | app/auth.py:553-586 | exactly when an invitation is issued, with the terms of the call |
| Invitations.AcceptedIff | app/auth.py:610-659 | exactly when an invitation is accepted, by whom, and that the account joins with the role it was invited for |
| Invitations.TermsAreKept | app/auth.py:553-659 | over any calls an invitation keeps its terms and leaves the pending state once |
| Invitations.MembershipsComeFrom | app/auth.py:464-748 | where memberships come from, and which call may change what in one |

## Left out

- Connected goals (`start_connected_goal`, `execute_connected_evidence`): they copy the status of a reference run and depend on live collectors.
- The replacing `store.update` calls after an action in app/main.py, and the reclassification of old webhook runs: only the service-level step is modelled.
- FastAPI routes, sessions, CSRF, dashboards, the assistant and the presentation script.
- GitHub, Jira, AWS, Gemini and Groq clients, Conftest and Rego: policy evaluators, models and tools are arbitrary functions.
- PostgreSQL, file and Redis persistence: stores are in memory, and the lease sees Redis as keys with a token and an expiry. Two scheduler processes with separate stores are outside the scheduling theorems.
- Passwords, tokens, redaction and Terraform patterns: whether a text is prohibited or an email valid is an input, and emails arrive normalized.
- Time zones with changing offsets, and the calendar's end after year 9999.
- Floating-point rounding: confidence, costs, delays and clocks are reals.
- Explanations, summaries, audit details, planning notes and policy violation codes: they decide nothing.
- How evidence resolves a planner question: which questions stay open is an input of the completion.
- The success path of sign-in, resending, cancelling and listing invitations, the approval permission flag, and the reset operations: they add only easy members.
- An exception of a cloud adapter in the middle of a hunt.
- Numeric readings of non-numeric evidence values, such as a boolean given as a number.
