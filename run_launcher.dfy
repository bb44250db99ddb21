/** Launching a run: create the stored run, seed its context and plan, build the
    graph's initial input, and, once the graph settles, write its outcome back to the
    store. The graph runs detached: the id is returned before it settles, so the two
    halves are two methods here. */
module RunLauncher {
  import opened Wrappers
  import opened Text
  import opened Domain
  import opened State
  import opened RunStore

  /** What a run may be seeded with (a relaunch with an earlier plan, say). */
  datatype LaunchSeed = LaunchSeed(
    plan: Option<string>,
    resumeAction: Option<ResumeAction>,
    resumeComment: Option<string>,
    contextPatch: Option<RunContext>)

  /** The patch's fields with the run id and the three request fields laid over them. */
  function InitialContext(runId: string, params: RunPayload, seed: LaunchSeed): (c: RunContext)
    ensures c.runId == runId && c.ticketUrl == params.ticketUrl
    ensures c.chatId == params.chatId && c.requesterId == params.requesterId
    ensures seed.contextPatch.Some? ==> c == seed.contextPatch.value.(runId := runId,
      ticketUrl := params.ticketUrl, chatId := params.chatId, requesterId := params.requesterId)
    ensures seed.contextPatch.None? ==> c == BareContext(runId, params.ticketUrl, params.chatId, params.requesterId)
  {
    seed.contextPatch.GetOr(BareContext("", "", "", "")).(runId := runId,
      ticketUrl := params.ticketUrl, chatId := params.chatId, requesterId := params.requesterId)
  }

  /** The graph's input: run id, payload and context, and the seed's plan, resume action
      and resume comment only when they are truthy. */
  function InitialInput(runId: string, params: RunPayload, seed: LaunchSeed): Update {
    NoUpdate.(
      runId := Put(runId),
      payload := Put(params),
      context := Put(InitialContext(runId, params, seed)),
      plan := if Truthy(seed.plan) then Put(seed.plan) else Keep,
      resumeAction := if seed.resumeAction.Some? then Put(seed.resumeAction) else Keep,
      resumeComment := if Truthy(seed.resumeComment) then Put(seed.resumeComment) else Keep)
  }

  /** The state the first stage sees: the defaults with the input folded in. */
  function InitialState(runId: string, params: RunPayload, seed: LaunchSeed): (s: CodingState)
    ensures s.runId == runId && s.payload == params && s.context == InitialContext(runId, params, seed)
    ensures s.status == Received && s.codeIterations == 0 && s.reviewIterations == 0
    ensures s.plan == (if Truthy(seed.plan) then seed.plan else None)
    ensures s.resumeAction == seed.resumeAction
    ensures s.resumeComment == (if Truthy(seed.resumeComment) then seed.resumeComment else None)
    ensures s.error.None? && s.escalationReason.None? && s.questions.None? && s.answers.None?
  {
    Reduce(Initial(), InitialInput(runId, params, seed))
  }

  /** How the detached graph run settled: with its final state, or by throwing. */
  datatype GraphOutcome = Finished(final: CodingState) | Crashed(message: string)

  /** `ticketUrl.split("/").pop()`: the text after the last "/". */
  function LastSegment(s: string): (r: string)
    ensures |r| <= |s| && r == s[|s| - |r|..]
    ensures '/' !in r
    ensures |r| < |s| ==> s[|s| - |r| - 1] == '/'
  {
    if s == [] then []
    else if s[|s| - 1] == '/' then []
    else
      var r := LastSegment(s[..|s| - 1]);
      assert s[..|s| - 1][|s| - 1 - |r|..] + [s[|s| - 1]] == s[|s| - 1 - |r|..];
      r + [s[|s| - 1]]
  }

  /** The "failed" notification sent when the graph throws. */
  function FailureNotice(runId: string, params: RunPayload, message: string): (p: NotifyPayload)
    ensures p.status == "failed" && p.message == message && p.runId == runId
    ensures p.ticketKey == Some(LastSegment(params.ticketUrl)) && p.ticketUrl == Some(params.ticketUrl)
  {
    NotifyPayload(runId, "failed", message, Some(params.chatId), Some(params.requesterId),
      Some(LastSegment(params.ticketUrl)), Some(params.ticketUrl), NoData, [])
  }

  /** The run store has no `updateQuestions`; calling it throws this TypeError. */
  const MissingUpdateQuestions: string := "TypeError: runStore.updateQuestions is not a function"

  /** Creates the run and seeds its context and plan; returns the id and the graph's
      initial state. A taken id makes `create` throw, and nothing else happens. */
  method LaunchRun(store: Store, params: RunPayload, seed: LaunchSeed, id: string)
    returns (r: Result<string>, initial: CodingState)
    requires store.Valid()
    modifies store
    ensures store.Valid() && store.events == old(store.events)
    ensures id in old(store.runs) ==> r.Err? && store.runs == old(store.runs)
    ensures id !in old(store.runs) ==> (
      && r == Ok(id) && initial == InitialState(id, params, seed)
      && store.runs == old(store.runs)[id := CreatedRun(id, params).(
        context := InitialContext(id, params, seed),
        plan := if Truthy(seed.plan) then seed.plan else None)])
  {
    initial := InitialState(id, params, seed);
    r := store.Create(params, id);
    if r.Err? {
      return;
    }
    store.UpdateContext(id, InitialContext(id, params, seed));
    if Truthy(seed.plan) {
      store.UpdatePlan(id, seed.plan.value);
    }
  }

  /** The failure path: FAILED, one "error" event, and the "failed" notification. */
  method RecordFailure(store: Store, params: RunPayload, id: string, message: string) returns (notice: NotifyPayload)
    requires store.Valid()
    modifies store
    ensures store.Valid() && store.order == old(store.order)
    ensures notice == FailureNotice(id, params, message)
    ensures store.events == old(store.events) + [RunEvent(id, "error", map["message" := message])]
    ensures store.runs == if id in old(store.runs) then old(store.runs)[id := old(store.runs)[id].(status := Failed)] else old(store.runs)
  {
    store.UpdateStatus(id, Failed);
    store.AddEvent(id, "error", map["message" := message]);
    notice := FailureNotice(id, params, message);
  }

  /** The success path: status and context always, the plan when truthy; `thrown` when
      the final questions make the missing `updateQuestions` throw. */
  method RecordFinal(store: Store, id: string, final: CodingState) returns (thrown: bool)
    requires store.Valid()
    modifies store
    ensures store.Valid() && store.order == old(store.order) && store.events == old(store.events)
    ensures thrown <==> final.questions.Some?
    ensures store.runs == if id in old(store.runs) then old(store.runs)[id := old(store.runs)[id].(
      status := final.status, context := final.context,
      plan := if Truthy(final.plan) then final.plan else old(store.runs)[id].plan)] else old(store.runs)
  {
    store.UpdateStatus(id, final.status);
    store.UpdateContext(id, final.context);
    if Truthy(final.plan) {
      store.UpdatePlan(id, final.plan.value);
    }
    thrown := final.questions.Some?;
  }

  /** Writes the settled graph's outcome: a throw, or final questions (which make the
      missing `updateQuestions` throw), take the failure path; `classifyGraphFailure`
      plays no part. */
  method Complete(store: Store, params: RunPayload, id: string, outcome: GraphOutcome)
    returns (notice: Option<NotifyPayload>)
    requires store.Valid()
    modifies store
    ensures store.Valid() && store.order == old(store.order)
    ensures outcome.Finished? && outcome.final.questions.None? ==>
      && notice.None? && store.events == old(store.events)
      && (id in store.runs <==> id in old(store.runs))
      && (id in store.runs ==> store.runs[id].status == outcome.final.status && store.runs[id].context == outcome.final.context)
    ensures outcome.Crashed? ==>
      && notice == Some(FailureNotice(id, params, outcome.message))
      && store.events == old(store.events) + [RunEvent(id, "error", map["message" := outcome.message])]
    ensures outcome.Finished? && outcome.final.questions.Some? ==>
      && notice == Some(FailureNotice(id, params, MissingUpdateQuestions))
      && store.events == old(store.events) + [RunEvent(id, "error", map["message" := MissingUpdateQuestions])]
    ensures notice.Some? ==> (id in old(store.runs) <==> id in store.runs) && (id in store.runs ==> store.runs[id].status == Failed)
  {
    match outcome {
      case Crashed(m) =>
        var n := RecordFailure(store, params, id, m);
        notice := Some(n);
      case Finished(final) =>
        var thrown := RecordFinal(store, id, final);
        if thrown {
          var n := RecordFailure(store, params, id, MissingUpdateQuestions);
          notice := Some(n);
        } else {
          notice := None;
        }
    }
  }

  /** The seed's identity fields never survive: the run's own id and request win. */
  lemma PatchCannotOverrideIdentity(runId: string, params: RunPayload, seed: LaunchSeed)
    requires seed.contextPatch.Some?
    ensures var c := InitialContext(runId, params, seed);
      c.runId == runId && c.ticketUrl == params.ticketUrl && c.chatId == params.chatId && c.requesterId == params.requesterId
    ensures InitialContext(runId, params, seed).jiraIssue == seed.contextPatch.value.jiraIssue
  {
  }
}
