/** The clarify stage: skip clarification when a reused plan was approved, otherwise
    ask the clarify agent for questions and read its answer as a JSON array; any
    answer that is not a non-empty array means there is nothing to ask. */
module ClarifyNode {
  import opened Wrappers
  import opened Text
  import opened Domain
  import opened State
  import opened Stage

  /** What `JSON.parse` makes of the agent's output. */
  datatype Parsed = NotJson | NotArray | ArrayOf(items: seq<string>)

  /** The clarify agent's output and the JSON reader applied to it. */
  datatype World = World(output: string, parse: string -> Parsed)

  /** `state.plan?.trim()` is truthy and the run was resumed with approve. */
  predicate ReusesPlan(s: CodingState) {
    s.plan.Some? && Trim(s.plan.value) != "" && s.resumeAction == Some(Approve)
  }

  /** The update for a run with nothing to ask: PLANNING, questions undefined. */
  const NothingToAsk: Update := NoUpdate.(status := Put(Planning), questions := Put(None))

  function Clarify(s: CodingState, w: World): (r: StageResult)
    ensures r.outcome.Updated?
    ensures ReusesPlan(s) ==> r.effects == [] && r.outcome.update == NothingToAsk
    ensures !ReusesPlan(s) ==> r.effects == [RunAgent(ClarifyRole, s.context.worktreePath.GetOr(""), s.context, None)]
    ensures r.outcome.update.status == Put(Clarifying) <==>
      !ReusesPlan(s) && w.parse(w.output).ArrayOf? && w.parse(w.output).items != []
    ensures r.outcome.update.status == Put(Clarifying) ==> r.outcome.update.questions == Put(Some(w.parse(w.output).items))
    ensures r.outcome.update.status != Put(Clarifying) ==> r.outcome.update == NothingToAsk
  {
    if ReusesPlan(s) then StageResult([], Updated(NothingToAsk))
    else
      var effects := [RunAgent(ClarifyRole, s.context.worktreePath.GetOr(""), s.context, None)];
      match w.parse(w.output)
      case NotJson => StageResult(effects, Updated(NothingToAsk))
      case NotArray => StageResult(effects, Updated(NothingToAsk))
      case ArrayOf(questions) =>
        if |questions| == 0 then StageResult(effects, Updated(NothingToAsk))
        else StageResult(effects, Updated(NoUpdate.(status := Put(Clarifying), questions := Put(Some(questions)))))
  }

  /** clarify writes status and questions only: never error, plan, the counters or
      the context, and it never fails on a malformed answer. */
  lemma ClarifyWritesOnlyStatusAndQuestions(s: CodingState, w: World)
    ensures var u := Clarify(s, w).outcome.update;
      && u.error.Keep? && u.plan.Keep? && u.codeIterations.Keep? && u.reviewIterations.Keep?
      && u.context.Keep? && u.status.Put? && u.questions.Put?
    ensures w.parse(w.output).NotJson? || w.parse(w.output).NotArray? ==>
      Clarify(s, w).outcome.update == NothingToAsk
  {
  }
}
