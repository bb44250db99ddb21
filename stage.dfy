/** What a stage handler does when it runs: the collaborator calls it makes, in
    order, and its outcome, which is either a partial state update or a
    suspension (`interrupt`) carrying the payload shown to the human. */
module Stage {
  import opened Wrappers
  import opened Domain
  import opened State

  datatype PrRequest = PrRequest(
    projectKey: string,
    repoSlug: string,
    sourceBranch: string,
    targetBranch: string,
    title: string,
    description: string)

  /** A call into a collaborator, recorded in the order the handler makes it. */
  datatype Effect =
    | Notify(payload: NotifyPayload)
    | VpnUp
    | FetchIssue(ticketUrl: string)
    | TransitionIssue(key: string, transition: string)
    | EnsureMirror(repoUrl: string)
    | AddWorktree(mirrorPath: string, branch: string, targetBranch: string)
    | LoadRepoConfig(worktreePath: string)
    | FetchPage(url: string)
    | FetchThread(url: string)
    | RunAgent(role: AgentRole, workDir: string, context: RunContext, extra: Option<map<string, string>>)
    | SaveArtifact(runId: string, name: string, content: string)
    | SyncStatus(runId: string, status: RunStatus)
    | GitDiff(worktreePath: string)
    | StartContainer(binds: seq<string>)
    | Exec(script: string)
    | FinalizeAndPush(worktreePath: string, branch: string, squash: bool, targetBranch: string)
    | GetHeadCommit(worktreePath: string)
    | CreatePr(request: PrRequest)
    | GetBuildStatus(commitHash: string)
    | RemoveWorktree(worktreePath: string)

  /** The value a suspended stage exposes to whoever resumes it. */
  datatype Interrupt =
    | AskQuestions(questions: Option<seq<string>>)
    | ReviewPlan(plan: Option<string>)
    | CiFailure(ciStatus: string, buildUrl: Option<string>)

  /** The decision a suspended run is resumed with. */
  datatype ResumePayload = ResumePayload(action: ResumeAction, comment: Option<string>, answers: Option<seq<string>>)

  datatype Outcome = Updated(update: Update) | Suspend(payload: Interrupt)

  datatype StageResult = StageResult(effects: seq<Effect>, outcome: Outcome)

  /** The run's notification defaults taken from the context. */
  function NotifyFor(ctx: RunContext, status: string, message: string, data: NotifyData, actions: seq<NotifyAction>): NotifyPayload {
    NotifyPayload(ctx.runId, status, message, Some(ctx.chatId), Some(ctx.requesterId),
      TicketKeyOf(ctx), Some(ctx.ticketUrl), data, actions)
  }

  /** `jiraIssue?.key`. */
  function TicketKeyOf(ctx: RunContext): Option<string> {
    if ctx.jiraIssue.Some? then Some(ctx.jiraIssue.value.key) else None
  }

  /** The effects are all notifications and the outcome is a suspension with `p`:
      every suspending stage notifies before it suspends. */
  predicate NotifiesThenSuspends(r: StageResult, p: Interrupt) {
    r.outcome == Suspend(p) && |r.effects| > 0 && r.effects[|r.effects| - 1].Notify?
  }
}
