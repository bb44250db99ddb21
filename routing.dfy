/** The routing functions of the conditional edges and the escalate stage.
    Each router maps the state to the key it returns; the edge table in
    module Graph maps keys to destinations. */
module Routing {
  import opened Wrappers
  import opened Domain
  import opened State
  import opened Stage

  /** After plan approval: approve goes to the coder, revise back to the architect,
      and every other action (cancel included, and no action at all) yields "__end__". */
  function RouteAfterApproval(s: CodingState): (key: string)
    ensures key == "coder" <==> s.resumeAction == Some(Approve)
    ensures key == "architect" <==> s.resumeAction == Some(Revise)
    ensures key == "__end__" <==> s.resumeAction != Some(Approve) && s.resumeAction != Some(Revise)
  {
    if s.resumeAction == Some(Approve) then "coder"
    else if s.resumeAction == Some(Revise) then "architect"
    else "__end__"
  }

  /** After validation: a falsy error (absent or empty) passes to the reviewer whatever
      the counters; otherwise escalate once codeIterations reaches MAX_VALIDATION_LOOPS. */
  function RouteAfterValidation(s: CodingState): (key: string)
    ensures key in {"reviewer", "escalate", "coder"}
    ensures key == "reviewer" <==> !Truthy(s.error)
    ensures key == "escalate" <==> Truthy(s.error) && s.codeIterations >= MAX_VALIDATION_LOOPS
    ensures key == "coder" <==> Truthy(s.error) && s.codeIterations < MAX_VALIDATION_LOOPS
  {
    if !Truthy(s.error) then "reviewer"
    else if s.codeIterations >= MAX_VALIDATION_LOOPS then "escalate"
    else "coder"
  }

  /** After a CI suspension: only "retry" polls again; every other action cleans up. */
  function RouteAfterCi(s: CodingState): (key: string)
    ensures key == "await_ci" <==> s.resumeAction == Some(Retry)
    ensures key == "cleanup" <==> s.resumeAction != Some(Retry)
  {
    if s.resumeAction == Some(Retry) then "await_ci" else "cleanup"
  }

  /** After review: the validation rule with reviewIterations, MAX_REVIEWER_LOOPS and
      finalize as the pass target. */
  function RouteAfterReview(s: CodingState): (key: string)
    ensures key in {"finalize", "escalate", "coder"}
    ensures key == "finalize" <==> !Truthy(s.error)
    ensures key == "escalate" <==> Truthy(s.error) && s.reviewIterations >= MAX_REVIEWER_LOOPS
    ensures key == "coder" <==> Truthy(s.error) && s.reviewIterations < MAX_REVIEWER_LOOPS
  {
    if !Truthy(s.error) then "finalize"
    else if s.reviewIterations >= MAX_REVIEWER_LOOPS then "escalate"
    else "coder"
  }

  /** `escalationReason ?? error ?? "Max iterations reached"`: nullish, so an empty
      string is kept. */
  function EscalationReason(s: CodingState): (reason: string)
    ensures s.escalationReason.Some? ==> reason == s.escalationReason.value
    ensures s.escalationReason.None? && s.error.Some? ==> reason == s.error.value
    ensures s.escalationReason.None? && s.error.None? ==> reason == "Max iterations reached"
  {
    if s.escalationReason.Some? then s.escalationReason.value
    else if s.error.Some? then s.error.value
    else "Max iterations reached"
  }

  /** The escalate stage: one "escalated" notification carrying the reason, then
      status ESCALATED with that reason recorded. */
  function EscalateNode(s: CodingState): (r: StageResult)
    ensures r.outcome.Updated?
    ensures r.outcome.update == NoUpdate.(status := Put(Escalated), escalationReason := Put(Some(EscalationReason(s))))
    ensures |r.effects| == 1 && r.effects[0].Notify?
    ensures r.effects[0].payload.status == "escalated" && r.effects[0].payload.message == EscalationReason(s)
  {
    var ctx := s.context;
    var reason := EscalationReason(s);
    StageResult(
      [Notify(NotifyFor(ctx, "escalated", reason, NoData, []))],
      Updated(NoUpdate.(status := Put(Escalated), escalationReason := Put(Some(reason)))))
  }
}
