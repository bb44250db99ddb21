/** The finalize stage: squash and push the work branch, read the head commit and open
    a pull request, then wait for CI with the PR URL and commit recorded in the context. */
module FinalizeNode {
  import opened Wrappers
  import opened Domain
  import opened State
  import opened Stage

  /** What the collaborators answer: the head commit after the push and the PR's URL. */
  datatype World = World(commitHash: string, prUrl: string)

  /** `minions/` followed by the issue key, or the state's run id without an issue. */
  function BranchOf(s: CodingState): string {
    "minions/" + (if s.context.jiraIssue.Some? then s.context.jiraIssue.value.key else s.runId)
  }

  /** "KEY: summary" with an issue, else the branch name. */
  function PrTitle(s: CodingState): string {
    if s.context.jiraIssue.Some? then s.context.jiraIssue.value.key + ": " + s.context.jiraIssue.value.summary
    else BranchOf(s)
  }

  function Finalize(s: CodingState, w: World): (r: StageResult)
    ensures r.outcome.Updated?
    ensures r.outcome.update == NoUpdate.(status := Put(WaitingForCi), context := Put(
      s.context.(planMarkdown := s.plan, prUrl := Some(w.prUrl), commitHash := Some(w.commitHash))))
    ensures |r.effects| == 4 && r.effects[0] == SyncStatus(s.context.runId, Finalizing)
    ensures r.effects[1] == FinalizeAndPush(s.context.worktreePath.GetOr(""), BranchOf(s), true, s.context.targetBranch.GetOr("main"))
    ensures r.effects[2] == GetHeadCommit(s.context.worktreePath.GetOr(""))
    ensures r.effects[3] == CreatePr(PrRequest(s.context.projectKey.GetOr(""), s.context.repoSlug.GetOr(""),
      BranchOf(s), s.context.targetBranch.GetOr("main"), PrTitle(s), s.plan.GetOr("")))
  {
    var ctx := s.context;
    var branch := BranchOf(s);
    var target := ctx.targetBranch.GetOr("main");
    StageResult(
      [ SyncStatus(ctx.runId, Finalizing),
        FinalizeAndPush(ctx.worktreePath.GetOr(""), branch, true, target),
        GetHeadCommit(ctx.worktreePath.GetOr("")),
        CreatePr(PrRequest(ctx.projectKey.GetOr(""), ctx.repoSlug.GetOr(""), branch, target, PrTitle(s), s.plan.GetOr(""))) ],
      Updated(NoUpdate.(status := Put(WaitingForCi), context := Put(
        ctx.(planMarkdown := s.plan, prUrl := Some(w.prUrl), commitHash := Some(w.commitHash))))))
  }

  /** The pushed branch and the PR's source branch are the same `minions/` branch, named
      after the issue when there is one, and the PR is titled "KEY: summary". */
  lemma BranchNamedAfterIssue(s: CodingState, w: World)
    requires s.context.jiraIssue.Some?
    ensures var r := Finalize(s, w);
      var issue := s.context.jiraIssue.value;
      && r.effects[1].branch == r.effects[3].request.sourceBranch == "minions/" + issue.key
      && r.effects[3].request.title == issue.key + ": " + issue.summary
  {
  }

  /** Without an issue the branch is named after the run and the PR is titled with the
      branch name. */
  lemma BranchNamedAfterRun(s: CodingState, w: World)
    requires s.context.jiraIssue.None?
    ensures var r := Finalize(s, w);
      && r.effects[1].branch == r.effects[3].request.sourceBranch == "minions/" + s.runId
      && r.effects[3].request.title == "minions/" + s.runId
  {
  }

  /** Only the status and the context change, and in the context only the plan copy,
      the PR URL and the commit: every other context field survives. */
  lemma FinalizeKeepsContext(s: CodingState, w: World)
    ensures var t := Reduce(s, Finalize(s, w).outcome.update);
      t.status == WaitingForCi && t.codeIterations == s.codeIterations && t.reviewIterations == s.reviewIterations
      && t.plan == s.plan && t.context.planMarkdown == s.plan
      && t.context.prUrl == Some(w.prUrl) && t.context.commitHash == Some(w.commitHash)
      && t.context.worktreePath == s.context.worktreePath && t.context.jiraIssue == s.context.jiraIssue
  {
  }
}
