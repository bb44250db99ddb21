/** The await_approval stage: show a preview of the plan, suspend with the plan,
    and on resume record the action and the comment. */
module AwaitApprovalNode {
  import opened Wrappers
  import opened Text
  import opened Domain
  import opened State
  import opened Stage

  /** The preview length, in UTF-16 code units. */
  const PreviewLength: nat := 500

  /** `state.plan?.slice(0, 500) ?? "(no plan)"`: the plan's first 500 code units, or
      one less when the cut would split a surrogate pair. */
  function PlanPreview(plan: Option<string>): (preview: string)
    ensures plan.None? ==> preview == "(no plan)"
    ensures plan.Some? ==> |preview| <= |plan.value| && preview == plan.value[..|preview|]
    ensures plan.Some? && Utf16Length(plan.value) <= PreviewLength ==> preview == plan.value
    ensures plan.Some? && Utf16Length(plan.value) > PreviewLength ==>
      PreviewLength - 1 <= Utf16Length(preview) <= PreviewLength
  {
    match plan
    case None => "(no plan)"
    case Some(p) =>
      var r := Utf16Prefix(p, PreviewLength);
      assert Utf16Length(p) > PreviewLength ==> r != p;
      r
  }

  /** A plan of Basic Multilingual Plane characters is previewed by its first 500 of them. */
  lemma PreviewOfBmpPlan(p: string)
    requires Bmp(p)
    ensures PlanPreview(Some(p)) == if |p| <= PreviewLength then p else p[..PreviewLength]
  {
    BmpPrefix(p, PreviewLength);
  }

  function ApprovalNotice(s: CodingState): NotifyPayload {
    NotifyPayload(s.context.runId, "awaiting_approval", PlanPreview(s.plan), None, None, None, None, PlanData(s.plan), [])
  }

  function AwaitApproval(s: CodingState, resume: Option<ResumePayload>): (r: StageResult)
    ensures r.effects == [Notify(ApprovalNotice(s))]
    ensures resume.None? ==> NotifiesThenSuspends(r, ReviewPlan(s.plan))
    ensures resume.Some? ==>
      r.outcome == Updated(NoUpdate.(resumeAction := Put(Some(resume.value.action)), resumeComment := Put(resume.value.comment)))
  {
    var effects := [Notify(ApprovalNotice(s))];
    match resume
    case None => StageResult(effects, Suspend(ReviewPlan(s.plan)))
    case Some(p) => StageResult(effects, Updated(NoUpdate.(resumeAction := Put(Some(p.action)), resumeComment := Put(p.comment))))
  }

  /** A resume without a comment clears any earlier comment; the status is never set. */
  lemma ResumeOverwritesComment(s: CodingState, p: ResumePayload)
    ensures var t := Reduce(s, AwaitApproval(s, Some(p)).outcome.update);
      && t.resumeComment == p.comment && t.resumeAction == Some(p.action) && t.status == s.status
    ensures p.comment.None? ==> Reduce(s, AwaitApproval(s, Some(p)).outcome.update).resumeComment.None?
  {
  }
}
