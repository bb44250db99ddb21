/** The coder stage: run the coder agent with the plan, the reviewer's comment and
    the last validation error as extra template variables, then hand over to
    validation with the error cleared and one more coding iteration counted. */
module CoderNode {
  import opened Wrappers
  import opened Domain
  import opened State
  import opened Stage

  /** The extra variables: "plan", "reviewComment" and "validationError", each present
      exactly when its source value is truthy, and nothing else. */
  function CoderExtra(s: CodingState): (extra: map<string, string>)
    ensures "plan" in extra <==> Truthy(s.plan)
    ensures "reviewComment" in extra <==> Truthy(s.resumeComment)
    ensures "validationError" in extra <==> Truthy(s.error)
    ensures "plan" in extra ==> extra["plan"] == s.plan.value
    ensures "reviewComment" in extra ==> extra["reviewComment"] == s.resumeComment.value
    ensures "validationError" in extra ==> extra["validationError"] == s.error.value
    ensures extra.Keys <= {"plan", "reviewComment", "validationError"}
  {
    var e0: map<string, string> := map[];
    var e1 := if Truthy(s.plan) then e0["plan" := s.plan.value] else e0;
    var e2 := if Truthy(s.resumeComment) then e1["reviewComment" := s.resumeComment.value] else e1;
    if Truthy(s.error) then e2["validationError" := s.error.value] else e2
  }

  /** The conditional assignments that fill the dictionary. */
  method BuildExtra(s: CodingState) returns (extra: map<string, string>)
    ensures extra == CoderExtra(s)
  {
    extra := map[];
    if Truthy(s.plan) {
      extra := extra["plan" := s.plan.value];
    }
    if Truthy(s.resumeComment) {
      extra := extra["reviewComment" := s.resumeComment.value];
    }
    if Truthy(s.error) {
      extra := extra["validationError" := s.error.value];
    }
  }

  /** The result does not depend on what the agent answers. */
  function Coder(s: CodingState): (r: StageResult)
    ensures r.effects == [RunAgent(CoderRole, s.context.worktreePath.GetOr(""), s.context, Some(CoderExtra(s)))]
    ensures r.outcome == Updated(NoUpdate.(status := Put(Validating), codeIterations := Put(1), error := Put(None)))
  {
    StageResult(
      [RunAgent(CoderRole, s.context.worktreePath.GetOr(""), s.context, Some(CoderExtra(s)))],
      Updated(NoUpdate.(status := Put(Validating), codeIterations := Put(1), error := Put(None))))
  }

  /** The previous error reaches the agent and is then cleared; the code counter grows by one. */
  lemma CoderPassesThenClearsError(s: CodingState)
    requires Truthy(s.error)
    ensures Coder(s).effects[0].extra.value["validationError"] == s.error.value
    ensures Reduce(s, Coder(s).outcome.update).error.None?
    ensures Reduce(s, Coder(s).outcome.update).codeIterations == s.codeIterations + 1
  {
  }
}
