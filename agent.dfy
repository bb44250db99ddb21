/** Running an agent: the template variables taken from the run context, the
    prompt, tools and recursion limit the agent is started with, and the reply
    read back from the conversation it produces. The language model itself, the
    token provider and the template directory are inputs. */
module Agent {
  import opened Wrappers
  import opened Text
  import opened Domain
  import Prompt
  import Tools

  /** RECURSION_LIMITS; clarify has no entry, so the agent library's default applies. */
  function RecursionLimit(role: AgentRole): (limit: Option<nat>)
    ensures limit.None? <==> role == ClarifyRole
    ensures role == CoderRole ==> limit == Some(80)
    ensures role == ArchitectRole || role == ReviewerRole ==> limit == Some(40)
  {
    match role
    case ArchitectRole => Some(40)
    case CoderRole => Some(80)
    case ReviewerRole => Some(40)
    case ClarifyRole => None
  }

  /** A Confluence page as it appears in the prompt. */
  function PageSection(p: Page): string {
    "### " + p.title + "\n" + p.content
  }

  function PageSections(pages: seq<Page>): (r: seq<string>)
    ensures |r| == |pages|
    ensures forall i :: 0 <= i < |pages| ==> r[i] == PageSection(pages[i])
  {
    if pages == [] then [] else [PageSection(pages[0])] + PageSections(pages[1..])
  }

  /** `xs?.length` is truthy. */
  predicate NonEmpty<T>(xs: Option<seq<T>>) { xs.Some? && |xs.value| > 0 }

  /** The names of the variables taken from the context. */
  datatype VarName =
    | TicketKey | TicketSummary | TicketDescription | TicketComponents | TicketLabels
    | RepoSlug | RepoDescription | RepoConventions | TargetBranch
    | ValidationCommands | ConfluenceContext | LoopContext | FigmaLinks
  {
    /** The placeholder name the variable is filled in under. */
    function Name(): string {
      match this
      case TicketKey => "ticketKey"
      case TicketSummary => "ticketSummary"
      case TicketDescription => "ticketDescription"
      case TicketComponents => "ticketComponents"
      case TicketLabels => "ticketLabels"
      case RepoSlug => "repoSlug"
      case RepoDescription => "repoDescription"
      case RepoConventions => "repoConventions"
      case TargetBranch => "targetBranch"
      case ValidationCommands => "validationCommands"
      case ConfluenceContext => "confluenceContext"
      case LoopContext => "loopContext"
      case FigmaLinks => "figmaLinks"
    }
  }

  /** The variable a placeholder name denotes, if any. */
  function VarNamed(name: string): (v: Option<VarName>)
    ensures v.Some? ==> v.value.Name() == name
  {
    if name == "ticketKey" then Some(TicketKey)
    else if name == "ticketSummary" then Some(TicketSummary)
    else if name == "ticketDescription" then Some(TicketDescription)
    else if name == "ticketComponents" then Some(TicketComponents)
    else if name == "ticketLabels" then Some(TicketLabels)
    else if name == "repoSlug" then Some(RepoSlug)
    else if name == "repoDescription" then Some(RepoDescription)
    else if name == "repoConventions" then Some(RepoConventions)
    else if name == "targetBranch" then Some(TargetBranch)
    else if name == "validationCommands" then Some(ValidationCommands)
    else if name == "confluenceContext" then Some(ConfluenceContext)
    else if name == "loopContext" then Some(LoopContext)
    else if name == "figmaLinks" then Some(FigmaLinks)
    else None
  }

  /** Each variable has its own name. */
  lemma NamesInjective()
    ensures forall v: VarName :: VarNamed(v.Name()) == Some(v)
    ensures forall v: VarName, w: VarName :: v.Name() == w.Name() ==> v == w
  {
    forall v: VarName ensures VarNamed(v.Name()) == Some(v) {
      match v
      case TicketKey =>
      case TicketSummary =>
      case TicketDescription =>
      case TicketComponents =>
      case TicketLabels =>
      case RepoSlug =>
      case RepoDescription =>
      case RepoConventions =>
      case TargetBranch =>
      case ValidationCommands =>
      case ConfluenceContext =>
      case LoopContext =>
      case FigmaLinks =>
    }
  }

  const AllVars: set<VarName> := {
    TicketKey, TicketSummary, TicketDescription, TicketComponents, TicketLabels,
    RepoSlug, RepoDescription, RepoConventions, TargetBranch,
    ValidationCommands, ConfluenceContext, LoopContext, FigmaLinks}

  /** The value the context gives variable `v`, if it sets it at all. */
  function VarValue(ctx: RunContext, v: VarName): Option<string> {
    match v
    case TicketKey => if ctx.jiraIssue.Some? then Some(ctx.jiraIssue.value.key) else None
    case TicketSummary => if ctx.jiraIssue.Some? then Some(ctx.jiraIssue.value.summary) else None
    case TicketDescription => if ctx.jiraIssue.Some? then Some(ctx.jiraIssue.value.description) else None
    case TicketComponents =>
      if ctx.jiraIssue.Some? && |ctx.jiraIssue.value.components| > 0
      then Some(Join(ctx.jiraIssue.value.components, ", ")) else None
    case TicketLabels =>
      if ctx.jiraIssue.Some? && |ctx.jiraIssue.value.labels| > 0
      then Some(Join(ctx.jiraIssue.value.labels, ", ")) else None
    case RepoSlug => if Truthy(ctx.repoSlug) then ctx.repoSlug else None
    case RepoDescription => if Truthy(ctx.repoDescription) then ctx.repoDescription else None
    case RepoConventions => if Truthy(ctx.repoConventions) then ctx.repoConventions else None
    case TargetBranch => if Truthy(ctx.targetBranch) then ctx.targetBranch else None
    case ValidationCommands =>
      if NonEmpty(ctx.validationCommands) then Some(Join(ctx.validationCommands.value, "\n")) else None
    case ConfluenceContext =>
      if NonEmpty(ctx.confluencePages) then Some(Join(PageSections(ctx.confluencePages.value), "\n\n")) else None
    case LoopContext =>
      if NonEmpty(ctx.loopThreads) then Some(Join(ctx.loopThreads.value, "\n---\n")) else None
    case FigmaLinks =>
      if NonEmpty(ctx.figmaLinks) then Some(Join(ctx.figmaLinks.value, "\n")) else None
  }

  /** The variables taken from the context, before the extra variables are applied. */
  function ContextVars(ctx: RunContext): (vars: map<VarName, string>)
    ensures forall v :: v in vars <==> VarValue(ctx, v).Some?
    ensures forall v :: v in vars ==> vars[v] == VarValue(ctx, v).value
  {
    AllVarsComplete();
    map v | v in AllVars && VarValue(ctx, v).Some? :: VarValue(ctx, v).value
  }

  lemma AllVarsComplete()
    ensures forall v: VarName :: v in AllVars
  {
    forall v: VarName ensures v in AllVars {
      match v
      case TicketKey =>
      case TicketSummary =>
      case TicketDescription =>
      case TicketComponents =>
      case TicketLabels =>
      case RepoSlug =>
      case RepoDescription =>
      case RepoConventions =>
      case TargetBranch =>
      case ValidationCommands =>
      case ConfluenceContext =>
      case LoopContext =>
      case FigmaLinks =>
    }
  }

  /** What the context sets: the ticket's fields when there is a ticket (components and
      labels only when there are some), the repository fields only when truthy, and each
      list only when non-empty, joined by its own separator. */
  lemma ContextVarsMeaning(ctx: RunContext)
    ensures var vars := ContextVars(ctx);
      (TicketKey in vars <==> ctx.jiraIssue.Some?)
      && (TicketSummary in vars <==> ctx.jiraIssue.Some?)
      && (TicketDescription in vars <==> ctx.jiraIssue.Some?)
      && (ctx.jiraIssue.Some? ==>
        vars[TicketKey] == ctx.jiraIssue.value.key
        && vars[TicketSummary] == ctx.jiraIssue.value.summary
        && vars[TicketDescription] == ctx.jiraIssue.value.description)
      && (TicketComponents in vars <==> ctx.jiraIssue.Some? && |ctx.jiraIssue.value.components| > 0)
      && (TicketComponents in vars ==> vars[TicketComponents] == Join(ctx.jiraIssue.value.components, ", "))
      && (TicketLabels in vars <==> ctx.jiraIssue.Some? && |ctx.jiraIssue.value.labels| > 0)
      && (TicketLabels in vars ==> vars[TicketLabels] == Join(ctx.jiraIssue.value.labels, ", "))
    ensures var vars := ContextVars(ctx);
      (RepoSlug in vars <==> Truthy(ctx.repoSlug)) && (RepoSlug in vars ==> vars[RepoSlug] == ctx.repoSlug.value)
      && (RepoDescription in vars <==> Truthy(ctx.repoDescription))
      && (RepoDescription in vars ==> vars[RepoDescription] == ctx.repoDescription.value)
      && (RepoConventions in vars <==> Truthy(ctx.repoConventions))
      && (RepoConventions in vars ==> vars[RepoConventions] == ctx.repoConventions.value)
      && (TargetBranch in vars <==> Truthy(ctx.targetBranch))
      && (TargetBranch in vars ==> vars[TargetBranch] == ctx.targetBranch.value)
    ensures var vars := ContextVars(ctx);
      (ValidationCommands in vars <==> NonEmpty(ctx.validationCommands))
      && (ValidationCommands in vars ==> vars[ValidationCommands] == Join(ctx.validationCommands.value, "\n"))
      && (ConfluenceContext in vars <==> NonEmpty(ctx.confluencePages))
      && (ConfluenceContext in vars ==> vars[ConfluenceContext] == Join(PageSections(ctx.confluencePages.value), "\n\n"))
      && (LoopContext in vars <==> NonEmpty(ctx.loopThreads))
      && (LoopContext in vars ==> vars[LoopContext] == Join(ctx.loopThreads.value, "\n---\n"))
      && (FigmaLinks in vars <==> NonEmpty(ctx.figmaLinks))
      && (FigmaLinks in vars ==> vars[FigmaLinks] == Join(ctx.figmaLinks.value, "\n"))
  {
  }

  /** The context's variables under their placeholder names. */
  function Named(vars: map<VarName, string>): (named: map<string, string>)
    ensures forall v :: v in vars <==> v.Name() in named
    ensures forall v :: v in vars ==> named[v.Name()] == vars[v]
    ensures forall k :: k in named ==> VarNamed(k).Some?
  {
    NamesInjective();
    map v | v in vars :: v.Name() := vars[v]
  }

  /** `buildTemplateVars`: the context's variables with the extra variables assigned over
      them, so an extra variable wins over a computed one of the same name. */
  function TemplateVars(ctx: RunContext, extra: Option<map<string, string>>): (vars: map<string, string>)
    ensures extra.Some? ==> forall k :: k in extra.value ==> k in vars && vars[k] == extra.value[k]
    ensures forall v :: v in ContextVars(ctx) && (extra.None? || v.Name() !in extra.value) ==>
      v.Name() in vars && vars[v.Name()] == ContextVars(ctx)[v]
    ensures forall k :: k in vars ==> VarNamed(k).Some? || (extra.Some? && k in extra.value)
  {
    if extra.Some? then Named(ContextVars(ctx)) + extra.value else Named(ContextVars(ctx))
  }

  /** The kinds of message in an agent conversation. */
  datatype MessageKind = Human | Ai | Tool | System

  datatype Message = Message(kind: MessageKind, text: string)

  /** An assistant message with non-blank text. */
  predicate IsReply(m: Message) { m.kind == Ai && !Blank(m.text) }

  /** The position of the last assistant message among the first `n` whose trimmed
      text is not empty. */
  function LastReplyBefore(msgs: seq<Message>, n: nat): (r: Option<nat>)
    requires n <= |msgs|
    ensures r.Some? ==> r.value < n && IsReply(msgs[r.value])
    ensures r.Some? ==> forall j :: r.value < j < n ==> !IsReply(msgs[j])
    ensures r.None? ==> forall i :: 0 <= i < n ==> !IsReply(msgs[i])
  {
    if n == 0 then None
    else if IsReply(msgs[n - 1]) then Some(n - 1)
    else LastReplyBefore(msgs, n - 1)
  }

  /** The position of the last assistant message whose trimmed text is not empty. */
  function LastReplyAt(msgs: seq<Message>): (r: Option<nat>)
    ensures r.Some? ==> r.value < |msgs| && IsReply(msgs[r.value])
    ensures r.Some? ==> forall j :: r.value < j < |msgs| ==> !IsReply(msgs[j])
    ensures r.None? ==> forall i :: 0 <= i < |msgs| ==> !IsReply(msgs[i])
  {
    LastReplyBefore(msgs, |msgs|)
  }

  /** The trimmed text of the last assistant message whose trimmed text is not empty;
      "" when there is none. */
  function LastReply(msgs: seq<Message>): (r: string)
    ensures r == "" <==> LastReplyAt(msgs).None?
    ensures r != "" ==> r == Trim(msgs[LastReplyAt(msgs).value].text)
  {
    match LastReplyAt(msgs)
    case None => ""
    case Some(i) => TrimEmptyIffBlank(msgs[i].text); Trim(msgs[i].text)
  }

  /** The reply loop of `runAgent`: walks the messages from the last to the first and
      returns the first non-blank assistant text it meets. */
  method ExtractReply(messages: seq<Message>) returns (text: string)
    ensures text == LastReply(messages)
  {
    var i := |messages| - 1;
    while i >= 0
      invariant -1 <= i < |messages|
      invariant LastReplyAt(messages) == LastReplyBefore(messages, i + 1)
    {
      var msg := messages[i];
      if msg.kind != Ai {
        i := i - 1;
        continue;
      }
      var t := Trim(msg.text);
      TrimEmptyIffBlank(msg.text);
      if t != "" {
        return t;
      }
      i := i - 1;
    }
    return "";
  }

  /** What the agent is started with. */
  datatype Invocation = Invocation(
    apiKey: string,
    instructions: string,
    tools: seq<Tools.ToolName>,
    recursionLimit: Option<nat>,
    firstMessage: string)

  /** `runAgent`: the access token, then the role's template rendered with the run's
      variables; a missing token or template aborts before the agent starts. The agent's
      conversation is an input; the reply is read from it. */
  function RunAgent(role: AgentRole, worktree: seq<string>, ctx: RunContext, extra: Option<map<string, string>>,
                    accessToken: Result<string>, promptFiles: map<string, string>, promptsDir: string,
                    conversation: seq<Message>): (r: Result<(Invocation, string)>)
    ensures r.Ok? <==> accessToken.Ok? && Prompt.LoadTemplate(promptFiles, promptsDir, role.Name()).Ok?
    ensures accessToken.Err? ==> r == Err(accessToken.message)
    ensures r.Ok? ==> var (inv, reply) := r.value;
      inv.apiKey == accessToken.value
      && inv.instructions == Prompt.RenderTemplate(Prompt.LoadTemplate(promptFiles, promptsDir, role.Name()).value, TemplateVars(ctx, extra))
      && inv.tools == Tools.ToolsForRole(role)
      && inv.recursionLimit == RecursionLimit(role)
      && inv.firstMessage == "proceed"
      && reply == LastReply(conversation)
  {
    if accessToken.Err? then Err(accessToken.message)
    else
      var template := Prompt.LoadTemplate(promptFiles, promptsDir, role.Name());
      if template.Err? then Err(template.message)
      else
        var instructions := Prompt.RenderTemplate(template.value, TemplateVars(ctx, extra));
        Ok((Invocation(accessToken.value, instructions, Tools.ToolsForRole(role), RecursionLimit(role), "proceed"),
            LastReply(conversation)))
  }

  /** Only the coder's agent may write to the worktree or run commands. */
  lemma OnlyCoderWrites(role: AgentRole, worktree: seq<string>, ctx: RunContext, extra: Option<map<string, string>>,
                        accessToken: Result<string>, promptFiles: map<string, string>, promptsDir: string,
                        conversation: seq<Message>)
    requires RunAgent(role, worktree, ctx, extra, accessToken, promptFiles, promptsDir, conversation).Ok?
    ensures var inv := RunAgent(role, worktree, ctx, extra, accessToken, promptFiles, promptsDir, conversation).value.0;
      (exists t :: t in inv.tools && t.Writes()) <==> role == CoderRole
  {
    Tools.ToolNamesDistinct(role);
  }

  /** An extra variable replaces the computed one: a review comment handed in as extra
      reaches the prompt even when the context would have set the same name. */
  lemma ExtraOverrides(ctx: RunContext, v: VarName, value: string)
    requires v in ContextVars(ctx)
    ensures TemplateVars(ctx, Some(map[v.Name() := value]))[v.Name()] == value
  {
  }

  /** Without a ticket and with every optional field empty, only extra variables exist. */
  lemma BareContextHasNoVars(runId: string, ticketUrl: string, chatId: string, requesterId: string)
    ensures ContextVars(BareContext(runId, ticketUrl, chatId, requesterId)) == map[]
  {
    var vars := ContextVars(BareContext(runId, ticketUrl, chatId, requesterId));
    forall v | v in vars ensures false {
      match v
      case TicketKey =>
      case TicketSummary =>
      case TicketDescription =>
      case TicketComponents =>
      case TicketLabels =>
      case RepoSlug =>
      case RepoDescription =>
      case RepoConventions =>
      case TargetBranch =>
      case ValidationCommands =>
      case ConfluenceContext =>
      case LoopContext =>
      case FigmaLinks =>
    }
  }
}
