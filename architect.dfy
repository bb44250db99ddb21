/** The architect stage: ask the architect agent for a plan, store it verbatim as
    the run's "plan.md" artifact and wait for approval. */
module ArchitectNode {
  import opened Wrappers
  import opened Domain
  import opened State
  import opened Stage

  /** `output` is what the architect agent answers. */
  function Architect(s: CodingState, output: string): (r: StageResult)
    ensures r.effects == [
      RunAgent(ArchitectRole, s.context.worktreePath.GetOr(""), s.context, None),
      SaveArtifact(s.context.runId, "plan.md", output)]
    ensures r.outcome == Updated(NoUpdate.(status := Put(AwaitingApproval), plan := Put(Some(output))))
  {
    StageResult(
      [RunAgent(ArchitectRole, s.context.worktreePath.GetOr(""), s.context, None),
       SaveArtifact(s.context.runId, "plan.md", output)],
      Updated(NoUpdate.(status := Put(AwaitingApproval), plan := Put(Some(output)))))
  }

  /** After the architect the plan is exactly the agent's output and the status is
      AWAITING_APPROVAL; counters, error and context are as before. */
  lemma ArchitectSetsPlan(s: CodingState, output: string)
    ensures var t := Reduce(s, Architect(s, output).outcome.update);
      && t.plan == Some(output) && t.status == AwaitingApproval
      && t.codeIterations == s.codeIterations && t.reviewIterations == s.reviewIterations
      && t.error == s.error && t.context == s.context
  {
  }
}
