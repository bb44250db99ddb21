# minions: a verified model of the ticket-to-PR workflow

This project models the core of *minions* in Dafny. *minions* is a service that
takes a Jira ticket URL and drives a coding workflow until a pull request is open
and CI has answered. The workflow is a LangGraph state graph with these stages:

- **Intake:** hydrate (fetch the issue and resolve the repository), clarify, await
  clarification, architect, await approval.
- **Coding loop:** coder, validate, reviewer, limited by two bounded retry loops.
- **Delivery:** finalize, await CI, cleanup and escalate.

Around the graph sit several services:

- run bookkeeping: the run store, the run launcher and the graph-error classifier;
- the Jira client, the OAuth token provider and the VPN reference counter;
- the agent setup: prompt templates, per-role tools and template variables;
- the Telegram notifier and the Telegram bot, with its buttons, commands and dispatcher.

Shape of the model:

- **State.** The run state is a record with one channel per field. A partial update
  names the channels it writes. The two iteration counters add up, and every other
  channel is overwritten (`State`).
- **Stages.** Each stage is a function from the state and its collaborators' answers
  to a `StageResult`. A result holds the collaborator calls made, in order, and an
  outcome. The outcome is a partial update, or a suspension: LangGraph's `interrupt`.
- **Interpreter.** The fixed edge table is `Graph`, and the routers are `Routing`.
  `Executor` is a small-step interpreter over both. It parks a run at a suspension
  and re-runs the parked stage on resume. `Drive` plays a whole run as a sequence
  of steps and resumes, each with its own collaborator answers.
- **Stateful services become classes.** The store, the token provider, the VPN
  counter, the Telegram channel and the bot's awaited-revise table are classes.
  Their methods update fields and are proved against specification functions.
- **Loops become methods.** Loops in the source are methods with invariants: CI
  polling, validation, scope lookup, link collection, reply extraction and VPN
  polling.

Some parts of the environment are inputs to the model:

- collaborator answers: HTTP responses, docker exec results, agent output, clock
  readings, generated ids;
- the Jira-URL pattern match in the bot, and URL parsing.

## Model

| member | source | states |
|---|---|---|
| State.InitialDefaults | src/domain/state.ts:4-66 | the initial state has status RECEIVED, empty-string payload and context fields, zero counters and every optional channel undefined |
| State.ReduceNoUpdate | src/domain/state.ts:4-66 | an update that writes no key leaves every channel as it was |
| State.CountersAdd | src/domain/state.ts:25-32 | codeIterations and reviewIterations become the old value plus the written delta (nothing added when the key is absent) |
| State.LastWriteWins | src/domain/state.ts:4-64 | each of the thirteen other channels takes a written value, an explicit undefined included, and keeps its value when the key is absent |
| State.ReduceThen | src/domain/state.ts:4-66 | applying two updates in turn equals applying their combination (later write wins, counters sum) |
| State.CountersMonotone | src/domain/state.ts:25-32 | counters never decrease under updates with non-negative deltas |
| Graph.Successors | src/graph/coding.ts:43-76 | a destination is a successor of a stage exactly when some router key leads there through the stage's edge |
| Graph.FixedEdges | src/graph/coding.ts:43-61 | the run enters at hydrate; hydrate→clarify, architect→await_approval, coder→validate, finalize→await_ci, escalate→cleanup, cleanup→end whatever the key |
| Graph.ValidateSuccessors | src/graph/coding.ts:67-71 | validate leads to exactly reviewer, escalate or coder |
| Graph.ReviewerSuccessors | src/graph/coding.ts:72-76 | reviewer leads to exactly finalize, escalate or coder |
| Graph.ApprovalSuccessors | src/graph/coding.ts:62-66 | await_approval leads to exactly coder, architect or cleanup |
| Graph.CiSuccessors | src/graph/coding.ts:56-59 | await_ci leads to exactly itself or cleanup |
| Graph.ClarifySuccessors | src/graph/coding.ts:45-48 | clarify leads to exactly await_clarification or architect |
| Graph.ClarificationSuccessors | src/graph/coding.ts:49-52 | await_clarification leads to exactly architect or the end |
| Graph.AllSuccessors | src/graph/coding.ts:43-76 | the successor set of every stage, fixed edges included |
| Graph.OnlySelfLoop | src/graph/coding.ts:43-76 | a stage is its own successor exactly when it is await_ci |
| Graph.EndPredecessors | src/graph/coding.ts:43-76 | the end is reached exactly from cleanup and await_clarification |
| Graph.ApprovalEndUnmapped | src/graph/coding.ts:62-66 | the approval edge maps "coder", "architect" and "cleanup" and has no entry for "__end__" |
| Routing.RouteAfterApproval | src/graph/edges/routing.ts:6-12 | "coder" exactly on approve, "architect" exactly on revise, "__end__" for every other or missing action |
| Routing.RouteAfterValidation | src/graph/edges/routing.ts:14-20 | "reviewer" iff the error is falsy; "escalate" iff an error with codeIterations >= 2; "coder" iff an error below that |
| Routing.RouteAfterCi | src/graph/edges/routing.ts:22-27 | "await_ci" exactly on retry, "cleanup" otherwise |
| Routing.RouteAfterReview | src/graph/edges/routing.ts:29-35 | "finalize" iff the error is falsy; "escalate" iff an error with reviewIterations >= 2; "coder" otherwise |
| Routing.EscalationReason | src/graph/edges/routing.ts:42 | the escalation reason, else the error (even an empty one), else "Max iterations reached" |
| Routing.EscalateNode | src/graph/edges/routing.ts:37-59 | one "escalated" notification carrying the reason, then status ESCALATED with that reason |
| HydrateNode.TokenEnd | src/graph/nodes/hydrate.ts:6-7 | the end of the run of characters outside `[\s"')]` |
| HydrateNode.SchemeLength | src/graph/nodes/hydrate.ts:6-7 | `https?://` occurs at the position, with its length |
| HydrateNode.LinksFrom | src/graph/nodes/hydrate.ts:6-7 | every match is a link containing a marker and occurs in the text at or after the start |
| HydrateNode.ConfluenceUrls | src/graph/nodes/hydrate.ts:50-51 | the Confluence links are distinct and each contains `/wiki/`, `/confluence/` or a pageId parameter |
| HydrateNode.LoopUrls | src/graph/nodes/hydrate.ts:50-52 | the Loop links are distinct and each contains the Loop host or `/pl/` |
| HydrateNode.Present | src/graph/nodes/hydrate.ts:59-61 | keeps exactly the present results, never more than were fetched |
| HydrateNode.CollectPresent | src/graph/nodes/hydrate.ts:54-62 | the push loop collects exactly `Present` of the results |
| HydrateNode.MapOver | src/graph/nodes/hydrate.ts:56-58 | one fetch per URL, in order |
| HydrateNode.Hydrate | src/graph/nodes/hydrate.ts:9-112 | VPN up, issue fetch and the "In Progress" transition come first, and the outcome is always an update |
| HydrateNode.HydrateUnresolved | src/graph/nodes/hydrate.ts:24-30 | no repository: ESCALATED with "Could not resolve repo for issue KEY", context untouched, no mirror, worktree or notification |
| HydrateNode.HydrateResolved | src/graph/nodes/hydrate.ts:32-110 | a repository: mirror, worktree on "minions/KEY" from the target branch, a started notification last; PLANNING with the hydrated context keeping unrelated fields, holding the kept pages and the non-empty threads |
| HydrateNode.FetchesDeduplicated | src/graph/nodes/hydrate.ts:51-72 | each distinct Confluence and Loop link is fetched once |
| HydrateNode.PresentOfMap | src/graph/nodes/hydrate.ts:54-61 | a result is kept exactly when some URL's fetch returned it |
| HydrateNode.KeptResults | src/graph/nodes/hydrate.ts:54-72 | the kept pages are exactly the present results of fetching the deduplicated links; the kept threads exactly the non-empty texts fetched for them |
| HydrateNode.FalsyThreadsDropped | src/graph/nodes/hydrate.ts:69-71 | when every Loop link's thread is missing or empty, the context has no threads |
| ClarifyNode.Clarify | src/graph/nodes/clarify.ts:5-40 | a reused plan with approve skips the agent; otherwise CLARIFYING with the questions exactly when the output parses to a non-empty array, else PLANNING with questions cleared |
| ClarifyNode.ClarifyWritesOnlyStatusAndQuestions | src/graph/nodes/clarify.ts:26-38 | the stage writes only status and questions; output that is not JSON or not an array gives PLANNING |
| AwaitClarificationNode.AwaitClarification | src/graph/nodes/await-clarification.ts:12-45 | notifies the questions, then suspends; on resume, cancel writes only the action, anything else the action and the answers |
| AwaitClarificationNode.AwaitClarificationKeepsStatus | src/graph/nodes/await-clarification.ts:36-43 | a resume never writes the status; a cancel leaves the answers alone |
| ArchitectNode.Architect | src/graph/nodes/architect.ts:5-33 | runs the architect agent, saves plan.md with the output, sets AWAITING_APPROVAL and the plan |
| ArchitectNode.ArchitectSetsPlan | src/graph/nodes/architect.ts:28-31 | after the stage the plan is the agent output and the counters are unchanged |
| AwaitApprovalNode.PlanPreview | src/graph/nodes/await-approval.ts:16 | "(no plan)" without a plan; otherwise a prefix of the plan: the whole plan when it has at most 500 UTF-16 code units, else a cut of 499 or 500 units |
| AwaitApprovalNode.PreviewOfBmpPlan | src/graph/nodes/await-approval.ts:16 | for a plan of characters within the Basic Multilingual Plane the preview is exactly its first 500 characters (or the whole plan) |
| AwaitApprovalNode.AwaitApproval | src/graph/nodes/await-approval.ts:11-34 | notifies the preview, suspends with the plan, and on resume writes the action and the comment |
| AwaitApprovalNode.ResumeOverwritesComment | src/graph/nodes/await-approval.ts:29-32 | a resume without a comment clears the earlier comment |
| CoderNode.CoderExtra | src/graph/nodes/coder.ts:11-14 | the extra variables hold plan, reviewComment and validationError exactly when each is truthy, with their values |
| CoderNode.BuildExtra | src/graph/nodes/coder.ts:11-14 | the in-place filling yields `CoderExtra` |
| CoderNode.Coder | src/graph/nodes/coder.ts:5-24 | one coder agent call with those extras; VALIDATING, one more code iteration, error cleared |
| CoderNode.CoderPassesThenClearsError | src/graph/nodes/coder.ts:14-22 | a validation error reaches the coder's prompt and is then cleared, and codeIterations grows by one |
| ValidateNode.FailingBelow | src/graph/nodes/validate.ts:52-60 | only indices of commands already run |
| ValidateNode.FailingBelowSpec | src/graph/nodes/validate.ts:52-60 | an index is listed exactly when it is below the bound and that command exits non-zero |
| ValidateNode.FailingBelowIncreasing | src/graph/nodes/validate.ts:52-60 | the failing indices are listed in ascending order, as the loop meets them |
| ValidateNode.EntriesFor | src/graph/nodes/validate.ts:55-58 | one entry per failing index |
| ValidateNode.EntriesForSpec | src/graph/nodes/validate.ts:55-58 | the k-th entry is the "Command/Stdout/Stderr" entry of the k-th failing command |
| ValidateNode.EntriesNext | src/graph/nodes/validate.ts:52-60 | one more command adds its entry exactly when it fails |
| ValidateNode.Failures | src/graph/nodes/validate.ts:40-60 | a failed bootstrap gives only its entry; otherwise one entry per failing command |
| ValidateNode.FailuresEmptyIff | src/graph/nodes/validate.ts:40-60 | there are no failures exactly when the bootstrap and every command exit 0 |
| ValidateNode.RunValidation | src/graph/nodes/validate.ts:29-62 | the container loop collects exactly `Failures` |
| ValidateNode.ExecAll | src/graph/nodes/validate.ts:52-54 | every command runs wrapped in `cd /tmp/workspace && …` |
| ValidateNode.Validate | src/graph/nodes/validate.ts:9-72 | the stage's calls, and an update that records the joined failures as the error when the commands ran and something failed, else REVIEWING with the error cleared |
| ValidateNode.ValidateErrorIffFailures | src/graph/nodes/validate.ts:15-70 | no commands or no worktree: REVIEWING with error cleared; otherwise an error exactly when something failed, joined with "\n---\n" |
| ValidateNode.BootstrapFailureStops | src/graph/nodes/validate.ts:41-50 | a failed bootstrap runs no command and reports the bootstrap entry |
| ValidateNode.EveryCommandRuns | src/graph/nodes/validate.ts:52-60 | after a good bootstrap every command runs, failing or not |
| ReviewerNode.FirstRejected | src/graph/nodes/reviewer.ts:46 | the first `\bREJECTED:` position in the output |
| ReviewerNode.Reviewer | src/graph/nodes/reviewer.ts:19-62 | one more review iteration; an approval gives FINALIZING with the error cleared, otherwise the feedback becomes the error |
| ReviewerNode.ApprovedWinsOverRejected | src/graph/nodes/reviewer.ts:45-54 | APPROVED as a word anywhere in the answer approves whatever else it says, "REJECTED:" included: FINALIZING, and the review router finalizes |
| ReviewerNode.EmbeddedWordIsNoApproval | src/graph/nodes/reviewer.ts:45 | a single word other than APPROVED (UNAPPROVED, APPROVED_X) is no approval: `\b` needs a boundary on both sides |
| ReviewerNode.EmptyFeedbackPasses | src/graph/nodes/reviewer.ts:46-60 | an empty answer, or "REJECTED:" followed by whitespace only, sets the error to "" and the review router finalizes |
| FinalizeNode.Finalize | src/graph/nodes/finalize.ts:5-49 | sync FINALIZING, squash-push the branch, read the head of the worktree, then open the PR for the project and repository from the branch to the target branch (default "main") with the title and the plan as description; WAITING_FOR_CI with plan, PR URL and commit in the context |
| FinalizeNode.BranchNamedAfterIssue | src/graph/nodes/finalize.ts:20-28 | with an issue the branch is "minions/KEY" and the PR title is exactly "KEY: summary" |
| FinalizeNode.BranchNamedAfterRun | src/graph/nodes/finalize.ts:20-28 | without an issue both the branch and the PR title are "minions/" followed by the run id |
| FinalizeNode.FinalizeKeepsContext | src/graph/nodes/finalize.ts:39-46 | every other context field survives the stage |
| AwaitCiNode.FirstFailed | src/graph/nodes/await-ci.ts:73 | the first FAILED build |
| AwaitCiNode.PollFrom | src/graph/nodes/await-ci.ts:40-84 | at most 40 polls |
| AwaitCiNode.PollFromSpec | src/graph/nodes/await-ci.ts:40-84 | polling stops at the first settled answer: all successful ends with the first build's URL, a failure with the first failed build's URL; giving up otherwise means all 40 attempts were used |
| AwaitCiNode.PollBuilds | src/graph/nodes/await-ci.ts:38-84 | the polling loop computes `PollFrom` from attempt 0 |
| AwaitCiNode.NoBuildsTimesOut | src/graph/nodes/await-ci.ts:43-46 | a server that never reports builds makes the stage give up after 40 polls with no URL |
| AwaitCiNode.UrlIffBuildsSeen | src/graph/nodes/await-ci.ts:48-74 | on giving up, a URL is known exactly when some poll returned builds |
| AwaitCiNode.Requests | src/graph/nodes/await-ci.ts:41 | one build-status request per poll |
| AwaitCiNode.AwaitCi | src/graph/nodes/await-ci.ts:16-124 | no commit: DONE/SUCCESSFUL; otherwise the calls are the waiting notice, one status request per poll, then the ci_passed notice (DONE with the URL) or the ci_failed notice with retry/close buttons, a suspension, and on resume the action with FAILED |
| AwaitCiNode.AwaitCiBounded | src/graph/nodes/await-ci.ts:40-122 | at most 42 calls and no counter change |
| CleanupNode.FinalNotice | src/graph/nodes/cleanup.ts:20-30 | the run id, "escalated" or "done", "PR created" when a PR URL is set and "Run completed without PR" otherwise, the PR data, and no chat, ticket or actions |
| CleanupNode.Cleanup | src/graph/nodes/cleanup.ts:5-36 | the whole effect list: the worktree removal when one is set, then the final notice; keeps ESCALATED or settles on DONE |
| CleanupNode.CleanupSettles | src/graph/nodes/cleanup.ts:32-34 | after cleanup the status is ESCALATED or DONE |
| Executor.Advance | src/graph/coding.ts:43-76 | a suspension parks the run in the same stage and state; an update is reduced and the next stage is where the edge maps the router's key |
| Executor.Start | src/graph/coding.ts:43 | every run starts at hydrate |
| Executor.HandlerDeltas | src/domain/state.ts:25-32 | only the coder adds a code iteration and only the reviewer a review iteration, one each |
| Executor.StartBounds | src/domain/constants.ts:3-4 | a fresh run satisfies the iteration bounds |
| Executor.AdvancePreservesBounds | src/domain/constants.ts:3-4 | a stage run within its bounds, fresh or resumed, leads to a configuration within bounds |
| Executor.StepPreservesBounds | src/graph/coding.ts:67-76 | one step keeps the bounds |
| Executor.ResumePreservesBounds | src/graph/coding.ts:62-66 | a resume keeps the bounds |
| Executor.RunPreservesBounds | src/graph/edges/routing.ts:14-35 | a run in which each stage's collaborators answer the same way at every visit keeps codeIterations <= 3 and reviewIterations <= 2 up to its first suspension |
| Executor.DrivePreservesBounds | src/graph/edges/routing.ts:14-35 | a run driven by any sequence of steps and resumes, with the collaborators answering afresh at each, keeps codeIterations <= 3 and reviewIterations <= 2 |
| Executor.FreshRunBounded | src/graph/coding.ts:43-76 | a run from a fresh state stays within the bounds through all its suspensions and resumes |
| Executor.StepCountersMonotone | src/domain/state.ts:25-32 | a step never lowers a counter |
| Executor.HydrateAlwaysContinues | src/graph/coding.ts:43-44 | hydrate always goes to clarify, even when it marked the run ESCALATED, and clarify then overwrites that status |
| Executor.FailedValidationStep | src/graph/edges/routing.ts:14-20 | a failing validation returns to the coder below the limit and escalates at it |
| Executor.CoderStep | src/graph/coding.ts:54 | the coder always hands over to validate with one more code iteration |
| Executor.ValidateFields | src/graph/nodes/validate.ts:15-70 | validation keeps the context and both counters |
| Executor.RunUnfolds | src/graph/coding.ts:43-76 | a run from a stage visits that stage and continues from where its step leads |
| Executor.CoderRun | src/graph/coding.ts:54 | a run from the coder visits it and continues at validate with the coder's state |
| Executor.FailedValidationRun | src/graph/edges/routing.ts:14-20 | a run from a failing validation visits it and continues at escalate from two iterations on, else at the coder |
| Executor.RoundFields | src/graph/edges/routing.ts:14-20 | a failing coder-and-validate round adds one code iteration, keeps the review count, and validation still fails |
| Executor.FailedRoundRun | src/graph/coding.ts:54-71 | below the limit, a failing round visits coder and validate and comes back to the coder |
| Executor.EscalateRun | src/graph/coding.ts:61 | a run from escalate visits it and continues at cleanup |
| Executor.CleanupRun | src/graph/coding.ts:60 | a run from cleanup visits only cleanup and ends with its update applied |
| Executor.EscalationFields | src/graph/edges/routing.ts:37-59 | escalation sets ESCALATED and keeps both counters |
| Executor.FailAtLimit | src/graph/edges/routing.ts:18 | a failed validation at two iterations runs escalate and cleanup and ends ESCALATED with the counters kept, however many steps the run is given beyond three |
| Executor.FailBelowLimit | src/graph/edges/routing.ts:19 | a failed round below the limit returns to the coder |
| Executor.SecondRoundEscalates | src/graph/edges/routing.ts:14-20 | the second failing coder round escalates and ends the run, given four or more steps |
| Executor.EscalatesAfterTwoFailures | src/graph/edges/routing.ts:14-20 | with validation always failing the coder runs exactly twice, then escalate and cleanup; the run ends ESCALATED with codeIterations 2, however many steps beyond six it is given |
| Executor.EscalationTerminates | src/graph/coding.ts:60-61 | from escalate the run ends after escalate and cleanup, ESCALATED, with cleanup run once and the counters kept |
| Executor.ApprovalCancelIsUnmapped | src/graph/edges/routing.ts:6-12 | cancelling at plan approval yields "__end__", which the approval edge does not map |
| Executor.EmptyReviewFinalizes | src/graph/nodes/reviewer.ts:46-60 | an empty reviewer answer, or "REJECTED:" and whitespace, moves the run on to finalize |
| Executor.SuspendKeepsState | src/graph/nodes/await-approval.ts:25-27 | a stage suspends before any state change, and only the three await stages suspend |
| GraphError.FormatGraphError | src/services/graph-error.ts:42-53 | an Error renders as the trimmed "name: message" (never empty), a string as itself |
| GraphError.ClassifyGraphFailure | src/services/graph-error.ts:16-36 | ESCALATED/"escalated"/"escalation"/GRAPH_RECURSION_LIMIT exactly when a recursion pattern matches, else FAILED/"failed"/"error" with no code |
| GraphError.RecursionLimitEscalates | src/services/graph-error.ts:11-36 | an error whose text holds GRAPH_RECURSION_LIMIT, in any letter case, between word boundaries escalates the run with that code |
| GraphError.PhraseMatches | src/services/graph-error.ts:13 | "recursion limit of N reached" for any digits N between word boundaries matches in the lower-cased text |
| GraphError.PhraseMatchesAnyCase | src/services/graph-error.ts:13 | the phrase matches in any letter case and with any step count |
| GraphError.PhraseEscalates | src/services/graph-error.ts:11-36 | an error whose text holds the phrase, in any case, escalates the run |
| GraphError.CodeMatchesAnyCase | src/services/graph-error.ts:12 | the code in any letter case, between word boundaries, is a recursion-limit error |
| GraphError.GluedCodeIsNoMatch | src/services/graph-error.ts:11-14 | a single word whose lower-case form is not the code (the code glued to further word characters) is no recursion-limit error |
| GraphError.GluedHasNoPattern | src/services/graph-error.ts:11-14 | a single lower-case word other than the code matches neither pattern |
| GraphError.NoRecursionNoMatch | src/services/graph-error.ts:11-14 | both patterns contain "recursion", so a text without it matches neither |
| GraphError.OrdinaryErrorFails | src/services/graph-error.ts:30-35 | every error whose text does not contain "recursion" in any letter case is FAILED with no code |
| RunStore.CreatedRun | src/store/runs.ts:52-65 | a new run is RECEIVED with the payload and a context of the id and payload fields |
| RunStore.Listed | src/store/runs.ts:74-81 | the listed runs all have the filtered status |
| RunStore.ListedIff | src/store/runs.ts:74-81 | a run is listed exactly when it is stored under an id in the order and has the filtered status |
| RunStore.Without | src/store/runs.ts:113-115 | removing an id keeps every other id |
| RunStore.AppendDistinct | src/store/runs.ts:52-65 | appending a new id keeps ids distinct |
| RunStore.WithoutDistinct | src/store/runs.ts:113-115 | removal keeps ids distinct |
| RunStore.Store.Create | src/store/runs.ts:52-65 | a new id is stored as `CreatedRun` and appended to the order; an existing id is refused |
| RunStore.Store.Get | src/store/runs.ts:67-72 | a run exactly when the id is stored |
| RunStore.Store.List | src/store/runs.ts:74-81 | the listing loop returns `Listed` |
| RunStore.Store.UpdateStatus | src/store/runs.ts:83-89 | only that run's status changes; an unknown id changes nothing |
| RunStore.Store.UpdatePlan | src/store/runs.ts:91-97 | only that run's plan changes |
| RunStore.Store.UpdateContext | src/store/runs.ts:99-105 | only that run's context changes |
| RunStore.Store.AddEvent | src/store/runs.ts:107-111 | appends one event; runs unchanged |
| RunStore.Store.Delete | src/store/runs.ts:113-115 | the run is gone, other runs and the events stay |
| RunStore.ListSemantics | src/store/runs.ts:74-81 | the listing holds exactly the stored runs (with the status, when filtered) |
| RunLauncher.InitialContext | src/services/run-launcher.ts:31-37 | the patch's fields, then the run id, URL, chat and requester, which the patch cannot override |
| RunLauncher.InitialState | src/services/run-launcher.ts:43-50 | the graph input: id, payload, context, and plan/resume action/comment only when truthy |
| RunLauncher.LastSegment | src/services/run-launcher.ts:76 | the text after the last '/' |
| RunLauncher.FailureNotice | src/services/run-launcher.ts:69-78 | a "failed" notice with the message and the URL's last segment as ticket key |
| RunLauncher.LaunchRun | src/services/run-launcher.ts:21-50 | the run is created, its context written, and the seed plan stored when truthy |
| RunLauncher.RecordFailure | src/services/run-launcher.ts:66-79 | FAILED, an "error" event with the message, and the failure notice |
| RunLauncher.RecordFinal | src/services/run-launcher.ts:54-65 | the final status, context and plan are written; questions make the write throw |
| RunLauncher.Complete | src/services/run-launcher.ts:54-79 | a final state is recorded; a crash, or questions in the final state, ends FAILED with an event and a notice |
| RunLauncher.PatchCannotOverrideIdentity | src/services/run-launcher.ts:31-37 | a patched context keeps the run's own id, URL, chat and requester and the patch's other fields |
| Knowledge.Cleaned | src/services/knowledge.ts:76-78 | the trimmed non-empty commands |
| Knowledge.ResolveValidationCommands | src/services/knowledge.ts:72-82 | the repository's cleaned commands when any, else the repository's defaults, else none |
| Knowledge.CleanedAreTrimmed | src/services/knowledge.ts:76-78 | every kept command is non-empty and already trimmed |
| Knowledge.Insert | src/services/knowledge.ts:100-101 | inserting keeps the order sorted longest-first, stable among equal lengths |
| Knowledge.SortFrom | src/services/knowledge.ts:100-101 | the suffix of scopes, sorted |
| Knowledge.ScopeOrder | src/services/knowledge.ts:100-101 | a permutation of the scope indices, longest first, key order among equal lengths |
| Knowledge.FirstMatch | src/services/knowledge.ts:102-107 | the first scope in that order contained in the description |
| Knowledge.SelectedScopeIsLongest | src/services/knowledge.ts:97-108 | the chosen scope occurs in the description and no occurring scope is longer (or equal and earlier) |
| Knowledge.ProjectPrefix | src/services/knowledge.ts:91 | the key's part before the first '-' |
| Knowledge.AddSlugs | src/services/knowledge.ts:140-142 | adds the slugs other than the primary, once each |
| Knowledge.CollectScopeRepos | src/services/knowledge.ts:138-144 | the extras are exactly the non-primary slugs of matching scopes |
| Knowledge.ScopeRepos | src/services/knowledge.ts:131-146 | distinct, never the primary, exactly the slugs of scopes in the description |
| Knowledge.FindScopeRepos | src/services/knowledge.ts:131-146 | the loop computes `ScopeRepos` |
| Knowledge.Resolution | src/services/knowledge.ts:87-129 | an unknown project gives no repository |
| Knowledge.ResolutionFields | src/services/knowledge.ts:111-128 | a match exactly when the chosen slug is a repo; URL "base/slug.git", the repo's branch, the project, extras only when non-empty |
| Knowledge.DefaultWhenNoScope | src/services/knowledge.ts:110-111 | no scope in the description: the project default |
| Knowledge.LongestScopeWins | src/services/knowledge.ts:97-108 | the longest scope in the description picks the slug |
| Knowledge.ResolveRepo | src/services/knowledge.ts:87-129 | the scan computes `Resolution` |
| Knowledge.DashRuns | src/services/knowledge.ts:153-155 | a run of the given characters becomes one dash, so no dash is followed by such a character; the text never grows and keeps to `[a-z0-9-]` |
| Knowledge.DropWhile | src/services/knowledge.ts:156 | leading characters stripped |
| Knowledge.DropWhileEnd | src/services/knowledge.ts:156 | trailing characters stripped |
| Knowledge.KeepBranchChars | src/services/knowledge.ts:154 | only `[a-z0-9-]` kept |
| Knowledge.TidyDashes | src/services/knowledge.ts:162-163 | no double dash and no dash at either end, still within `[a-z0-9-]` |
| Knowledge.SliceKeepsNoDoubleDash | src/services/knowledge.ts:155-156 | a slice of a text without double dashes has none |
| Knowledge.BranchDescription | src/services/knowledge.ts:151-157 | a non-empty `[a-z0-9-]` slug with no double or edge dashes ("task" when empty) |
| Knowledge.FormatBranch | src/services/knowledge.ts:150-164 | the branch has no double dash and no dash at either end |
| Knowledge.FillBranch | src/services/knowledge.ts:159-163 | filling the format and tidying leaves no double dash and no dash at either end |
| Knowledge.BranchSlashFormat | src/services/knowledge.ts:150-164 | the format "{{TICKET_KEY}}/{{SHORT_DESCRIPTION}}" gives "KEY/description" for a plain key |
| Knowledge.SquashCommitDefault | src/services/knowledge.ts:166-170 | with the default format and a key whose `$`-expanded form has no brace, the commit is the key, ": " and the summary with JavaScript's `$` patterns expanded |
| Knowledge.SquashCommitPlain | src/services/knowledge.ts:166-170 | a key without braces or `$` and a summary without `$` give exactly "KEY: summary" |
| Knowledge.SquashCommitDollars | src/services/knowledge.ts:166-170 | a "$$" in the summary comes out as a single "$" |
| Prompt.TemplateFileName | src/services/prompt.ts:5 | ends in ".md", adding it only when missing |
| Prompt.LoadTemplate | src/services/prompt.ts:4-11 | the file under the prompts directory, or "Prompt template not found: path" |
| Prompt.ExtensionOptional | src/services/prompt.ts:5 | "name" and "name.md" load the same template |
| Prompt.WordRun | src/services/prompt.ts:17 | the `\w+` run at a position |
| Prompt.Lookup | src/services/prompt.ts:18 | `key in vars` also sees the properties a plain object inherits; an own key wins over an inherited one |
| Prompt.PlaceholderAt | src/services/prompt.ts:17 | a `{{name}}` at the head with its length |
| Prompt.PlaceholderStep | src/services/prompt.ts:17-19 | a leading placeholder is replaced and rendering continues after it |
| Prompt.PlainPrefix | src/services/prompt.ts:17-19 | text without braces is copied |
| Prompt.RenderFills | src/services/prompt.ts:13-20 | a template of plain pieces and names renders to the pieces with each name replaced by its value in the lookup, or kept as the placeholder when absent |
| Prompt.EmptyVarsIdentity | src/services/prompt.ts:18 | with no variables a template naming no inherited property is unchanged |
| Prompt.UnresolvedIdentity | src/services/prompt.ts:17-19 | a template none of whose placeholders the lookup resolves is unchanged |
| Prompt.InheritedNameRendered | src/services/prompt.ts:18 | a placeholder naming an inherited property absent from the variables renders as that property's text ("{{constructor}}" as the Object function's source) |
| Prompt.NoPlaceholderIdentity | src/services/prompt.ts:17 | a template without braces is unchanged |
| Prompt.SinglePass | src/services/prompt.ts:17-19 | a substituted value is not rendered again |
| Tools.Truncate | src/services/tools.ts:9-12 | text of at most 8192 UTF-16 code units unchanged; otherwise a proper prefix of 8191 or 8192 units followed by the marker |
| Tools.TruncateBounded | src/services/tools.ts:9-12 | the result has at most 8192 units plus the marker's |
| Tools.TruncateKeepsPrefix | src/services/tools.ts:9-12 | the result starts with the text's longest prefix of at most 8192 units |
| Tools.TruncateBmpCut | src/services/tools.ts:9-12 | for text within the Basic Multilingual Plane a long text becomes exactly its first 8192 characters and the marker |
| Tools.Normalise | src/services/tools.ts:18-19 | `path.resolve` over segments yields a normalised path |
| Tools.Resolve | src/services/tools.ts:18-19 | resolving a path against the worktree yields a normalised path |
| Tools.AssertWithinWorktree | src/services/tools.ts:14-29 | the resolved path when it is the worktree or below it, else "Path traversal blocked" |
| Tools.WithinIffPrefix | src/services/tools.ts:20-23 | the string test "starts with worktree + '/' or equals it" is exactly segment-prefix containment |
| Tools.SlashedPrefix | src/services/tools.ts:21 | a path below the worktree starts with the worktree and a slash |
| Tools.SlashedInjective | src/services/tools.ts:22 | two paths render equal exactly when they are equal |
| Tools.SplitSlashed | src/services/tools.ts:18-19 | splitting a rendered path gives back its segments |
| Tools.NormaliseDown | src/services/tools.ts:19 | plain segments append to the base |
| Tools.ResolvePathString | src/services/tools.ts:18 | resolving a rendered absolute path gives it back |
| Tools.SiblingRejected | src/services/tools.ts:20-27 | a sibling directory sharing the worktree's name prefix is rejected |
| Tools.ParentEscapeRejected | src/services/tools.ts:20-27 | "../name" is rejected |
| Tools.PlainRelativeAccepted | src/services/tools.ts:18-28 | a plain name resolves inside the worktree |
| Tools.ToolsForRole | src/services/tools.ts:166-183 | four read-only tools for every role; the coder also gets write_file and bash, and only the coder has writing tools |
| Tools.ToolNamesDistinct | src/services/tools.ts:167-182 | the tool names are distinct, and a writing tool is present exactly for the coder |
| Tools.WriteReport | src/services/tools.ts:123 | "Written N bytes to path", N being the content's UTF-16 length in decimal |
| Tools.WriteReportCountsLength | src/services/tools.ts:123 | two reports for one path are equal exactly when the contents have the same UTF-16 length |
| Agent.RecursionLimit | src/services/agent.ts:9-13 | coder 80, architect and reviewer 40, clarify none |
| Agent.PageSections | src/services/agent.ts:106-108 | one "### title\ncontent" section per page |
| Agent.VarNamed | src/services/agent.ts:84-117 | a variable name maps back to its variable |
| Agent.NamesInjective | src/services/agent.ts:84-117 | variable names are distinct |
| Agent.ContextVars | src/services/agent.ts:84-117 | a variable is set exactly when its context value exists |
| Agent.AllVarsComplete | src/services/agent.ts:84-117 | every variable is considered |
| Agent.ContextVarsMeaning | src/services/agent.ts:84-117 | each variable is set exactly when its source is present (or non-empty) and holds the joined value |
| Agent.Named | src/services/agent.ts:82 | the variables by name |
| Agent.TemplateVars | src/services/agent.ts:78-122 | every extra variable is present with its value; context variables survive unless overridden |
| Agent.LastReplyAt | src/services/agent.ts:66-74 | the last AI message with non-blank text |
| Agent.LastReply | src/services/agent.ts:66-75 | that message's trimmed text, or "" when there is none |
| Agent.ExtractReply | src/services/agent.ts:66-75 | the backward loop computes `LastReply` |
| Agent.RunAgent | src/services/agent.ts:33-75 | token and template first; the agent gets the token, the rendered instructions, the role's tools and limit, and "proceed"; the reply is the last non-blank AI text |
| Agent.OnlyCoderWrites | src/services/agent.ts:56-57 | only the coder's agent gets writing tools |
| Agent.ExtraOverrides | src/services/agent.ts:119 | an extra variable overrides the computed one |
| Agent.BareContextHasNoVars | src/services/agent.ts:78-117 | a context of only id, URL, chat and requester gives no variables |
| Jira.UpperRun | src/services/jira.ts:16 | the run of upper-case letters at a position |
| Jira.MatchesKeyIff | src/services/jira.ts:16 | the scan accepts exactly `^[A-Z]+-\d+$` |
| Jira.NonEmptyParts | src/services/jira.ts:14 | the non-empty path segments |
| Jira.ParseTicketKey | src/services/jira.ts:12-22 | an unparsable URL fails; otherwise the last non-empty segment when it is a key, else "Cannot parse Jira ticket key from URL: …" |
| Jira.TrailingSlashIgnored | src/services/jira.ts:14-15 | a trailing slash does not change the key |
| Jira.KeyAtEndParsed | src/services/jira.ts:12-22 | a path ending in a key parses to that key |
| Jira.RootPathRefused | src/services/jira.ts:15-20 | the root path has no key |
| Jira.LowerCaseKeyRefused | src/services/jira.ts:16 | a lower-case key is refused |
| Jira.LinkRun | src/services/jira.ts:10 | the run of characters outside `[\s"')]` |
| Jira.FigmaMatches | src/services/jira.ts:10 | every match is a Figma link |
| Jira.MatchesOccur | src/services/jira.ts:10 | every match occurs in the text, greedily extended |
| Jira.HeadMatch | src/services/jira.ts:10 | a match at a position is a Figma link there |
| Jira.ExtractFigmaLinks | src/services/jira.ts:24-26 | distinct Figma links occurring in the text, exactly the matches |
| Jira.NoPrefixNoLinks | src/services/jira.ts:24-26 | no prefix occurrence, no links |
| Jira.RepeatedLinkOnce | src/services/jira.ts:25 | a repeated link appears once |
| Jira.LinkUrls | src/services/jira.ts:86-91 | exactly the present outward and inward URLs |
| Jira.ToIssue | src/services/jira.ts:77-93 | key, summary, description or "", components, labels, links and the description's Figma links |
| Jira.Request | src/services/jira.ts:59-72 | a network failure or a non-2xx status is an error naming the endpoint or status and text; otherwise the parsed body, which fails when the body does not parse |
| Jira.FetchIssue | src/services/jira.ts:74-94 | a bad URL fails before any request; otherwise the issue endpoint's parsed reply mapped |
| Jira.FindTransition | src/services/jira.ts:107-109 | the first transition whose name matches ignoring case |
| Jira.Names | src/services/jira.ts:112 | the transition names in order |
| Jira.TransitionIssue | src/services/jira.ts:97-119 | list, find ignoring case, post the id; no match is "Transition … not available … Available: …" |
| Jira.NoContentTransitionFails | src/services/jira.ts:59-72 | a found transition whose POST answers 204 with an empty body still fails with the parse error |
| Jira.TransitionCaseInsensitive | src/services/jira.ts:107-109 | names differing only in case choose the same transition |
| Jira.AddComment | src/services/jira.ts:122-127 | a post to the comment endpoint; succeeds exactly on a 2xx whose body parses, failing as the request does |
| Jira.BaseUrl | src/services/jira.ts:47 | one trailing slash removed |
| Jira.OneSlashRemoved | src/services/jira.ts:47 | only one slash goes |
| Auth.FreshIff | src/services/auth.ts:26-31 | the token is served as is exactly when last refresh > 0 and now < last + 8h − 60s |
| Auth.Refresh | src/services/auth.ts:48-89 | the error cases with their messages; the new file has the new access token and timestamp and keeps old refresh/id tokens when absent |
| Auth.ServeMeaning | src/services/auth.ts:24-36 | a fresh token is served without a refresh, otherwise the refresh result is served and held |
| Auth.MissingLastRefreshRefreshes | src/services/auth.ts:28-31 | no last refresh always refreshes |
| Auth.RefreshedServedAgain | src/services/auth.ts:79-88 | a just-refreshed file is served as is until the window closes |
| Auth.TokenProvider.LoadTokens | src/services/auth.ts:38-46 | the cached file when held, else the stored file, which is then cached |
| Auth.TokenProvider.GetAccessToken | src/services/auth.ts:24-36 | the token `Serve` gives; the store and cache change only on a successful refresh |
| Vpn.UpsCount | src/services/vpn.ts:12 | each up adds one |
| Vpn.DownsCount | src/services/vpn.ts:32 | each down removes one, never below zero |
| Vpn.BalancedCallsRestore | src/services/vpn.ts:11-41 | as many downs as ups restore the count |
| Vpn.AfterConcat | src/services/vpn.ts:11-41 | counts compose over call sequences |
| Vpn.VpnService.Up | src/services/vpn.ts:11-29 | one more reference; start only when first and inactive; success exactly when already referenced, active, or active within 30 checks, else "VPN failed to come up within 15s" |
| Vpn.VpnService.Down | src/services/vpn.ts:31-41 | one reference less (floored at 0); stop only when none remain and the service is active |
| TelegramConfig.DigitRun | src/services/telegram-config.ts:8 | the digit run at a position |
| TelegramConfig.TokenMatchesIff | src/services/telegram-config.ts:8 | the scan accepts exactly `^\d+:[A-Za-z0-9_-]{20,}$` |
| TelegramConfig.Resolve | src/services/telegram-config.ts:11-46 | trimmed values; enabled exactly when both are set and well-formed; otherwise the first failing check's reason |
| TelegramConfig.TokenReportedFirst | src/services/telegram-config.ts:27-34 | a bad token is reported before a bad chat id |
| TelegramConfig.SameTrimSameResolution | src/services/telegram-config.ts:15-16 | inputs with the same trimmed values resolve the same |
| TelegramConfig.TrimmedInputsSame | src/services/telegram-config.ts:15-16 | pre-trimmed inputs resolve the same |
| TelegramConfig.SignedChatIds | src/services/telegram-config.ts:9 | negative and positive chat ids are accepted |
| Telegram.EscapeEach | src/services/telegram.ts:140-145 | per-character escaping contains no angle bracket |
| Telegram.EscHtmlPerChar | src/services/telegram.ts:140-145 | the three passes escape each character independently |
| Telegram.NoAngleBrackets | src/services/telegram.ts:140-145 | escaped text has no angle brackets |
| Telegram.EscHtmlRoundTrip | src/services/telegram.ts:140-145 | unescaping the escaped text gives it back |
| Telegram.UnescapeStep | src/services/telegram.ts:140-145 | an escaped character followed by more text unescapes to that character first |
| Telegram.EscapeEachRoundTrip | src/services/telegram.ts:140-145 | unescaping the per-character escape gives it back |
| Telegram.BuildCallbackData | src/services/telegram.ts:133-138 | "mn:ACTION:run", else "mn:cancel:run" for a cancel endpoint, else "mn:action:run" |
| Telegram.CancelButtonData | src/services/telegram.ts:136 | the cancel button encodes "mn:cancel:run" |
| Telegram.Header | src/services/telegram.ts:106-113 | the label (or the raw status) followed by the ticket reference when there is a key |
| Telegram.SliceTo | src/services/telegram.ts:121 | JavaScript `slice(0, end)` counted in UTF-16 units, negative ends from the end |
| Telegram.PlanCut | src/services/telegram.ts:118-121 | a plan within the room is kept; a longer one becomes its longest prefix within the room (in UTF-16 units) and the marker, exactly the first `room` characters for a Basic Multilingual Plane plan |
| Telegram.FormatMessage | src/services/telegram.ts:105-131 | the header, then the body when there is one, joined by a blank line |
| Telegram.ApprovalShowsFittingPlan | src/services/telegram.ts:117-122 | a plan within the room (4096 minus the header's UTF-16 length minus 60) is shown whole, escaped, in a pre block |
| Telegram.ApprovalCutsLongPlan | src/services/telegram.ts:117-122 | a longer Basic Multilingual Plane plan is shown as its first `room` characters and the marker, escaped, in a pre block |
| Telegram.ApprovalRoomWithoutTicket | src/services/telegram.ts:106-119 | without a ticket the approval header is 13 units long, leaving room for 4023 |
| Telegram.StartedHasNoBody | src/services/telegram.ts:126 | a started notice has only the header |
| Telegram.Keyboard | src/services/telegram.ts:29-38 | one button per action with its callback data |
| Telegram.NextIdsMeaning | src/services/telegram.ts:84-101 | a sent id is remembered for the run; a finished run is forgotten |
| Telegram.TelegramChannel.Send | src/services/telegram.ts:26-102 | edit the remembered message or send a new one, then update the ids |
| BotCallbacks.After | src/bot/callbacks.ts:6 | the run id after a prefix |
| BotCallbacks.DecodeCallback | src/bot/callbacks.ts:6 | a decoded pair always re-encodes to the data |
| BotCallbacks.DecodeEncoded | src/bot/callbacks.ts:6 | encoded data decodes to its action and run |
| BotCallbacks.CallbackRoundTrip | src/services/telegram.ts:133-135 | a button built for approve, revise or cancel decodes to them |
| BotCallbacks.CancelButtonRoundTrip | src/services/telegram.ts:136 | the cancel button decodes to a cancel of that run |
| BotCallbacks.RetryRejected | src/bot/callbacks.ts:6 | "mn:retry:…" does not decode |
| BotCallbacks.CloseRejected | src/bot/callbacks.ts:6 | "mn:close:…" does not decode |
| BotCallbacks.CiButtonsIgnored | src/graph/nodes/await-ci.ts:99-110 | the retry and close buttons do not decode |
| BotCallbacks.PendingRevise.HandleCallback | src/bot/callbacks.ts:18-56 | nothing without data, chat or a match; revise remembers the run and asks for a comment; approve or cancel resume and answer |
| BotCommands.RouteOf | src/bot/commands.ts:25-115 | empty text is ignored; an awaited comment comes first; then /start, /status, /cancel, a Jira link |
| BotCommands.PendingComesFirst | src/bot/commands.ts:29-46 | any text, even "/start", is the awaited comment |
| BotCommands.CommandsBeforeLinks | src/bot/commands.ts:48-97 | /start and /status win over a link |
| BotCommands.ActiveRuns | src/bot/commands.ts:60-65 | exactly the runs not DONE, FAILED or ESCALATED |
| BotCommands.StatusListsActive | src/bot/commands.ts:58-75 | /status shows exactly the stored active runs |
| BotCommands.ShortId | src/bot/commands.ts:71 | the longest prefix of at most eight UTF-16 units: the whole id when it fits |
| BotCommands.StatusLines | src/bot/commands.ts:70-72 | one line per run |
| BotCommands.Respond | src/bot/commands.ts:29-115 | each route's replies and resumes; only comments and cancels resume, and only the named run |
| BotCommands.HandleMessage | src/bot/commands.ts:19-116 | the effects `Respond` gives, and the awaited revise consumed only by a comment |
| BotHandlers.Authorise | src/bot/handlers.ts:13-30 | a press from the allowed chat goes to callbacks, else a message from it to commands, else nothing |
| BotHandlers.PressIgnoresMessage | src/bot/handlers.ts:19-24 | a press decides alone |
| BotHandlers.EmptyUpdateDropped | src/bot/handlers.ts:26-30 | an empty update does nothing |
| BotHandlers.Dispatch | src/bot/handlers.ts:13-30 | a dropped update does nothing; a press is handled as `CallbackHandled` says, effects and waiting map both; a message gets `HandleMessage`'s effects, and a revise comment consumes the chat's awaited revise while other messages leave it |

## Left out

- I/O is not modelled. This covers file reads and writes, `execSync`, docker, git, Bitbucket, Confluence and Loop, the LLM conversation, `fetch` and console logging. Each collaborator's answer is an input, and each call is an effect value.
- Timers and sleeps are left out. Clocks and UUIDs are parameters.
- LangGraph checkpoints, threads and concurrency are left out. Parallel runs of the graph are not modelled.
- `new URL(…)` parsing is an input (the pathname, or a failure). `JSON.parse` of agent output is an input. The bot's Jira-URL pattern match is an input.
- The clarify routers `routeAfterClarify` and `routeAfterClarification` are imported by the graph, but their code is not part of this model. Their keys are inputs.
- The graph does not map the "__end__" key of the approval router. The interpreter ends such a run as unmapped, and the model does not guess what the library does then.
- The run store's `updateQuestions` is called by the launcher but is not part of this model. A final state with questions is modelled as a throw, which marks the run FAILED.
- `\s`, `\b`, `\w`, `trim` and `toLowerCase` are approximated by their ASCII versions. In particular `trim` does not strip U+00A0, U+FEFF, U+2028 or U+2029 here, while JavaScript's does.
- Tool bodies are not modelled: the file reading, listing, searching, grep and bash. The model covers the path guard, truncation, the write report and which roles get which tools.
- `path.resolve` is modelled over segment lists, and `path.join` as `dir + "/" + name`.
- Jira.AddComment does not model the comment body.
- Auth.TokenProvider.GetAccessToken does not model failures of `mkdirSync` or `writeFileSync`.
- Vpn.VpnService.Up does not model the start command's failures, timeouts or sleeps.
- Telegram.TelegramChannel.Send does not model failed requests. A failure only logs, and the `sentId` input stands for a message id returned or not.
- BotCallbacks.PendingRevise.HandleCallback and BotCommands.HandleMessage do not model Bot API request failures, which are only logged. The `.catch` of the revise and cancel invokes only logs as well.
- BotCommands.HandleMessage does not model the "Ошибка при отправке комментария" reply. Its `catch` fires only when starting the resume throws synchronously, because a rejected resume is only logged and `reply` swallows its own request failures.
- Agent.TemplateVars is a function. The in-place filling of the record is not modelled as a method.
- Tools.Truncate: a cut that would split a surrogate pair stops before that character; JavaScript's `slice` keeps the pair's first half as a lone surrogate.
- AwaitApprovalNode.PlanPreview: a cut through a surrogate pair stops before that character, as for `Truncate`.
- Telegram.SliceTo: a cut through a surrogate pair stops before that character, as for `Truncate`.
- Telegram.PlanCut: a cut through a surrogate pair stops before that character, as for `Truncate`.
- BotCommands.ShortId: a cut through a surrogate pair stops before that character, as for `Truncate`.
- Prompt.Lookup: the inherited properties are V8's `Object.prototype` members with the text `String` gives them. An own `__proto__` key, which an object literal turns into the prototype, is not modelled.
- Executor.RunPreservesBounds: `Run` answers every visit to a stage with the same collaborator answers and stops at the first suspension. `Drive`, with `DrivePreservesBounds`, covers whole runs across resumes with fresh answers at every step.
- The hydrate stage's "In Progress" transition is recorded as a call, but its outcome is not an input: its failure is caught and only logged.
- The body of a Jira reply is an input as the result of reading it as JSON: the value, or the error `json()` rejects with (as for the empty body of a 204).
- HydrateNode.Hydrate, and every other stage: an exception a collaborator throws inside a stage has no outcome of its own in the model. Examples are `vpn.up` not coming up within 15s, `fetchIssue` on a URL without a key, and docker or agent errors. In the source such a throw rejects the graph's `invoke`, and the launcher records FAILED. The model represents it only by the `Crashed` input of RunLauncher.Complete. So the `Err` results of Jira.FetchIssue and Vpn.VpnService.Up are not connected to a run's outcome.
- RunStore.Store.UpdatePlan assumes that the `runs` table has a `plan` column. The `initDb` schema in src/store/db.ts:11-18 has none, and under it the UPDATE throws "no such column: plan".
- RunStore.Store.AddEvent assumes that the `events.run_id` reference (src/store/db.ts:22) is not enforced, so an event may name a run that does not exist. With foreign keys enforced, that insert throws.
- RunStore.Store.Delete assumes the same, so a deleted run's events stay. With foreign keys enforced, deleting a run that has events throws.
- RunLauncher.LaunchRun writes a truthy seed plan through `updatePlan`, assuming the `plan` column. Under the `initDb` schema the launch throws there.
- RunLauncher.RecordFinal assumes that the plan write succeeds. Under the `initDb` schema a truthy final plan throws, as `updateQuestions` does.
- RunLauncher.Complete records a finished run with a truthy plan under its final status. Under the `initDb` schema that run takes the failure path instead: FAILED, an error event and the failed notice.
