/** The cleanup stage: remove the worktree when there is one (a failure is ignored),
    announce the end of the run, and settle the status: an escalated run stays
    escalated, every other run is done. */
module CleanupNode {
  import opened Wrappers
  import opened Domain
  import opened State
  import opened Stage

  /** The final notification: only the run id, the status, the message and the PR URL. */
  function FinalNotice(s: CodingState): (p: NotifyPayload)
    ensures p.status == (if s.status == Escalated then "escalated" else "done")
    ensures p.message == "PR created" <==> Truthy(s.context.prUrl)
    ensures !Truthy(s.context.prUrl) ==> p.message == "Run completed without PR"
    ensures p.runId == s.context.runId
    ensures p.data == PrData(s.context.prUrl) && p.chatId.None? && p.actions == []
    ensures p.requesterId.None? && p.ticketKey.None? && p.ticketUrl.None?
  {
    NotifyPayload(s.context.runId,
      if s.status == Escalated then "escalated" else "done",
      if Truthy(s.context.prUrl) then "PR created" else "Run completed without PR",
      None, None, None, None, PrData(s.context.prUrl), [])
  }

  function Cleanup(s: CodingState): (r: StageResult)
    ensures r.outcome.Updated?
    ensures r.outcome.update == NoUpdate.(status := Put(if s.status == Escalated then Escalated else Done))
    ensures |r.effects| > 0 && r.effects[|r.effects| - 1] == Notify(FinalNotice(s))
    ensures RemoveWorktree(s.context.worktreePath.GetOr("")) in r.effects <==> Truthy(s.context.worktreePath)
    ensures r.effects == (if Truthy(s.context.worktreePath) then [RemoveWorktree(s.context.worktreePath.value)] else [])
      + [Notify(FinalNotice(s))]
  {
    var removal := if Truthy(s.context.worktreePath) then [RemoveWorktree(s.context.worktreePath.value)] else [];
    StageResult(removal + [Notify(FinalNotice(s))],
      Updated(NoUpdate.(status := Put(if s.status == Escalated then Escalated else Done))))
  }

  /** The run always ends in a terminal status, and it is ESCALATED exactly when it
      arrived escalated. */
  lemma CleanupSettles(s: CodingState)
    ensures var t := Reduce(s, Cleanup(s).outcome.update);
      t.status.IsTerminal() && t.status != Failed && (t.status == Escalated <==> s.status == Escalated)
  {
  }
}
