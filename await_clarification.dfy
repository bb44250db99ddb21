/** The await_clarification stage: announce the questions with a cancel button,
    suspend with them, and on resume record the action and, unless it is cancel,
    the answers. */
module AwaitClarificationNode {
  import opened Wrappers
  import opened Domain
  import opened State
  import opened Stage

  /** `${jiraIssue?.key}` inside a template: the key, or "undefined". */
  function KeyText(ctx: RunContext): string {
    if ctx.jiraIssue.Some? then ctx.jiraIssue.value.key else "undefined"
  }

  function QuestionsNotice(s: CodingState): NotifyPayload {
    NotifyFor(s.context, "clarifying", "Questions for " + KeyText(s.context), QuestionsData(s.questions),
      [NotifyAction("❌ Cancel", CancelEndpoint(s.context.runId), map[])])
  }

  /** The stage run fresh (`resume` None) or replayed with the resume payload. */
  function AwaitClarification(s: CodingState, resume: Option<ResumePayload>): (r: StageResult)
    ensures r.effects == [Notify(QuestionsNotice(s))]
    ensures resume.None? ==> NotifiesThenSuspends(r, AskQuestions(s.questions))
    ensures resume.Some? && resume.value.action == Cancel ==>
      r.outcome == Updated(NoUpdate.(resumeAction := Put(Some(Cancel))))
    ensures resume.Some? && resume.value.action != Cancel ==>
      r.outcome == Updated(NoUpdate.(resumeAction := Put(Some(resume.value.action)), answers := Put(resume.value.answers)))
  {
    var effects := [Notify(QuestionsNotice(s))];
    match resume
    case None => StageResult(effects, Suspend(AskQuestions(s.questions)))
    case Some(p) =>
      if p.action == Cancel then StageResult(effects, Updated(NoUpdate.(resumeAction := Put(Some(Cancel)))))
      else StageResult(effects, Updated(NoUpdate.(resumeAction := Put(Some(p.action)), answers := Put(p.answers))))
  }

  /** The stage never changes status, and a cancel leaves the answers untouched. */
  lemma AwaitClarificationKeepsStatus(s: CodingState, resume: Option<ResumePayload>)
    ensures AwaitClarification(s, resume).outcome.Updated? ==>
      AwaitClarification(s, resume).outcome.update.status.Keep?
    ensures resume.Some? && resume.value.action == Cancel ==>
      Reduce(s, AwaitClarification(s, resume).outcome.update).answers == s.answers
  {
  }
}
