/** The run workflow's value types: run status, resume actions, CI build
    statuses, the run payload and the accumulated run context, the loop bounds
    and the notification payload shared by every stage. */
module Domain {
  import opened Wrappers

  /** The thirteen run statuses. */
  datatype RunStatus =
    | Received | Hydrating | Clarifying | Planning | AwaitingApproval | Coding
    | Validating | Reviewing | Finalizing | WaitingForCi | Done | Failed | Escalated
  {
    /** The status as it is stored and shown. */
    function Name(): string {
      match this
      case Received => "RECEIVED"
      case Hydrating => "HYDRATING"
      case Clarifying => "CLARIFYING"
      case Planning => "PLANNING"
      case AwaitingApproval => "AWAITING_APPROVAL"
      case Coding => "CODING"
      case Validating => "VALIDATING"
      case Reviewing => "REVIEWING"
      case Finalizing => "FINALIZING"
      case WaitingForCi => "WAITING_FOR_CI"
      case Done => "DONE"
      case Failed => "FAILED"
      case Escalated => "ESCALATED"
    }

    predicate IsTerminal() {
      this == Done || this == Failed || this == Escalated
    }
  }

  /** The decisions a suspended run can be resumed with. */
  datatype ResumeAction = Approve | Revise | Cancel | Retry | Close | Answer {
    function Name(): string {
      match this
      case Approve => "approve"
      case Revise => "revise"
      case Cancel => "cancel"
      case Retry => "retry"
      case Close => "close"
      case Answer => "answer"
    }
  }

  /** The agent roles; each has its own prompt template and tool set. */
  datatype AgentRole = ArchitectRole | CoderRole | ReviewerRole | ClarifyRole {
    function Name(): string {
      match this
      case ArchitectRole => "architect"
      case CoderRole => "coder"
      case ReviewerRole => "reviewer"
      case ClarifyRole => "clarify"
    }
  }

  datatype BuildState = Successful | BuildFailed | InProgress

  datatype BuildStatus = BuildStatus(state: BuildState, name: string, url: string, dateAdded: int)

  datatype RunPayload = RunPayload(ticketUrl: string, chatId: string, requesterId: string)

  datatype JiraIssue = JiraIssue(
    key: string,
    summary: string,
    description: string,
    components: seq<string>,
    labels: seq<string>,
    links: seq<string>,
    figmaLinks: seq<string>)

  datatype Page = Page(title: string, content: string)

  /** The accumulated working data of a run; every field after the first four may be absent. */
  datatype RunContext = RunContext(
    runId: string,
    ticketUrl: string,
    chatId: string,
    requesterId: string,
    jiraIssue: Option<JiraIssue>,
    repoUrl: Option<string>,
    targetBranch: Option<string>,
    branchName: Option<string>,
    worktreePath: Option<string>,
    mirrorPath: Option<string>,
    planMarkdown: Option<string>,
    validationCommands: Option<seq<string>>,
    figmaLinks: Option<seq<string>>,
    projectKey: Option<string>,
    repoSlug: Option<string>,
    prUrl: Option<string>,
    commitHash: Option<string>,
    confluencePages: Option<seq<Page>>,
    loopThreads: Option<seq<string>>,
    repoDescription: Option<string>,
    additionalRepos: Option<seq<string>>,
    repoConventions: Option<string>)

  /** A context holding only the four required fields. */
  function BareContext(runId: string, ticketUrl: string, chatId: string, requesterId: string): RunContext {
    RunContext(runId, ticketUrl, chatId, requesterId,
      None, None, None, None, None, None, None, None, None, None,
      None, None, None, None, None, None, None, None)
  }

  /** JavaScript truthiness of an optional string: present and non-empty. */
  predicate Truthy(s: Option<string>) {
    s.Some? && s.value != ""
  }

  const MAX_VALIDATION_LOOPS: int := 2
  const MAX_REVIEWER_LOOPS: int := 2
  const CI_POLL_INTERVAL_MS: int := 30000
  const CI_POLL_MAX_ATTEMPTS: nat := 40

  /** A button attached to a notification: a label, the endpoint it calls and its JSON body. */
  datatype NotifyAction = NotifyAction(caption: string, endpoint: string, body: map<string, string>)

  /** The structured `data` attached to a notification. */
  datatype NotifyData =
    | NoData
    | QuestionsData(questions: Option<seq<string>>)
    | PlanData(plan: Option<string>)
    | PrData(prUrl: Option<string>)

  datatype NotifyPayload = NotifyPayload(
    runId: string,
    status: string,
    message: string,
    chatId: Option<string>,
    requesterId: Option<string>,
    ticketKey: Option<string>,
    ticketUrl: Option<string>,
    data: NotifyData,
    actions: seq<NotifyAction>)

  /** The endpoint a run's cancel button calls. */
  function CancelEndpoint(runId: string): string {
    "/api/v1/runs/" + runId + "/cancel"
  }

  function ResumeEndpoint(runId: string): string {
    "/api/v1/runs/" + runId + "/resume"
  }
}
