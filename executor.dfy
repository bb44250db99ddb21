/** A small-step interpreter for the coding workflow: run the current stage's handler,
    fold its update into the state, ask the router for a key and follow the edge table.
    A suspending stage parks the run; resuming re-runs that stage with the payload. */
module Executor {
  import opened Wrappers
  import opened Domain
  import Text
  import opened State
  import opened Stage
  import opened Routing
  import opened Graph
  import HydrateNode
  import ClarifyNode
  import AwaitClarificationNode
  import ArchitectNode
  import AwaitApprovalNode
  import CoderNode
  import ValidateNode
  import ReviewerNode
  import FinalizeNode
  import AwaitCiNode
  import CleanupNode
  import Knowledge

  /** What the collaborators answer to a stage, per stage, and the keys returned by the
      two clarification routers, whose predicates are not part of this model. `Run` holds
      one answer per stage fixed for the steps it takes; `Drive` takes a new one at
      every step and every resume. */
  datatype Env = Env(
    hydrate: HydrateNode.World,
    clarify: ClarifyNode.World,
    architectOutput: string,
    validate: ValidateNode.World,
    reviewer: ReviewerNode.World,
    finalize: FinalizeNode.World,
    ci: AwaitCiNode.World,
    clarifyRoute: string,
    clarificationRoute: string)

  /** Where a run is: about to run a stage, parked in a stage with the interrupt's value,
      finished, or stopped because a router returned a key the edge map lacks. */
  datatype Config =
    | At(node: Node, state: CodingState)
    | Suspended(node: Node, state: CodingState, payload: Interrupt)
    | Ended(state: CodingState)
    | Unmapped(node: Node, key: string, state: CodingState)

  datatype Transition = Transition(next: Config, effects: seq<Effect>)

  /** Runs stage `n`'s handler; `resume` is the payload when the stage is replayed. */
  function Handle(n: Node, s: CodingState, env: Env, resume: Option<ResumePayload>): StageResult {
    match n
    case Hydrate => HydrateNode.Hydrate(s, env.hydrate)
    case Clarify => ClarifyNode.Clarify(s, env.clarify)
    case AwaitClarification => AwaitClarificationNode.AwaitClarification(s, resume)
    case Architect => ArchitectNode.Architect(s, env.architectOutput)
    case AwaitApproval => AwaitApprovalNode.AwaitApproval(s, resume)
    case Coder => CoderNode.Coder(s)
    case Validate => ValidateNode.Validate(s, env.validate)
    case Reviewer => ReviewerNode.Reviewer(s, env.reviewer)
    case Finalize => FinalizeNode.Finalize(s, env.finalize)
    case AwaitCi => AwaitCiNode.AwaitCi(s, env.ci, resume)
    case Cleanup => CleanupNode.Cleanup(s)
    case Escalate => EscalateNode(s)
  }

  /** The key the router of `n`'s edge returns on the reduced state ("" for a fixed edge). */
  function RouteKey(n: Node, s: CodingState, env: Env): string {
    match n
    case Clarify => env.clarifyRoute
    case AwaitClarification => env.clarificationRoute
    case AwaitApproval => RouteAfterApproval(s)
    case Validate => RouteAfterValidation(s)
    case Reviewer => RouteAfterReview(s)
    case AwaitCi => RouteAfterCi(s)
    case _ => ""
  }

  /** Where the run goes once stage `n` has produced `r` from state `s`. */
  function Advance(n: Node, s: CodingState, r: StageResult, env: Env): (t: Transition)
    ensures t.effects == r.effects
    ensures r.outcome.Suspend? ==> t.next == Suspended(n, s, r.outcome.payload)
    ensures r.outcome.Updated? ==> !t.next.Suspended? && t.next.state == Reduce(s, r.outcome.update)
    ensures r.outcome.Updated? && t.next.At? ==> Follow(n, RouteKey(n, t.next.state, env)) == Some(To(t.next.node))
    ensures r.outcome.Updated? && t.next.Ended? ==> Follow(n, RouteKey(n, t.next.state, env)) == Some(End)
  {
    match r.outcome
    case Suspend(p) => Transition(Suspended(n, s, p), r.effects)
    case Updated(u) =>
      var t := Reduce(s, u);
      var key := RouteKey(n, t, env);
      match Follow(n, key)
      case None => Transition(Unmapped(n, key, t), r.effects)
      case Some(To(m)) => Transition(At(m, t), r.effects)
      case Some(End) => Transition(Ended(t), r.effects)
  }

  /** One step of a run that is about to run a stage. */
  function Step(c: Config, env: Env): Transition
    requires c.At?
  {
    Advance(c.node, c.state, Handle(c.node, c.state, env, None), env)
  }

  /** Resuming a parked run re-runs its stage with the payload. */
  function Resume(c: Config, env: Env, p: ResumePayload): Transition
    requires c.Suspended?
  {
    Advance(c.node, c.state, Handle(c.node, c.state, env, Some(p)), env)
  }

  /** A run starts at the entry stage. */
  function Start(s: CodingState): (c: Config)
    ensures c == At(Hydrate, s)
  {
    At(Entry, s)
  }

  /** The final configuration, the stages run and the calls made in up to `fuel` steps. */
  datatype Trace = Trace(final: Config, visited: seq<Node>, effects: seq<Effect>)

  function Run(c: Config, env: Env, fuel: nat): Trace
    decreases fuel, 0
  {
    if fuel == 0 || !c.At? then Trace(c, [], [])
    else RunAt(c.node, c.state, env, fuel - 1)
  }

  /** A run that is about to run stage `n` on `s`, with `fuel` steps after it: `n` is
      the next stage visited. */
  function RunAt(n: Node, s: CodingState, env: Env, fuel: nat): Trace
    decreases fuel, 2
  {
    var rest := Continue(n, s, env, fuel);
    Trace(rest.final, [n] + rest.visited, rest.effects)
  }

  /** Stage `n` runs on `s`: its calls come first, then those of the rest of the run
      from where it leads. */
  function Continue(n: Node, s: CodingState, env: Env, fuel: nat): Trace
    decreases fuel, 1
  {
    var t := Step(At(n, s), env);
    var rest := Run(t.next, env, fuel);
    Trace(rest.final, rest.visited, t.effects + rest.effects)
  }

  // ─── Counters ───

  /** The amount each stage adds to the two counters: coder one code iteration,
      reviewer one review iteration, every other stage nothing. */
  lemma HandlerDeltas(n: Node, s: CodingState, env: Env, resume: Option<ResumePayload>)
    ensures var r := Handle(n, s, env, resume);
      r.outcome.Updated? ==>
        && r.outcome.update.codeIterations == (if n == Coder then Put(1) else Keep)
        && r.outcome.update.reviewIterations == (if n == Reviewer then Put(1) else Keep)
  {
    match n
    case Hydrate =>
    case Validate =>
    case AwaitCi =>
    case _ =>
  }

  /** The iteration counters allowed at each stage: none before coding; at the coder
      at most one code iteration ahead of the reviews; at validate and reviewer one or
      two ahead, with at most one review so far; and after that at most three code
      iterations and two reviews. */
  predicate NodeBounds(n: Node, s: CodingState) {
    var c := s.codeIterations;
    var r := s.reviewIterations;
    match n
    case Hydrate => c == 0 && r == 0
    case Clarify => c == 0 && r == 0
    case AwaitClarification => c == 0 && r == 0
    case Architect => c == 0 && r == 0
    case AwaitApproval => c == 0 && r == 0
    case Coder => 0 <= r <= c <= r + 1 && r <= 1
    case Validate => 0 <= r && r + 1 <= c <= r + 2 && r <= 1
    case Reviewer => 0 <= r && r + 1 <= c <= r + 2 && r <= 1
    case _ => 0 <= c <= 3 && 0 <= r <= 2
  }

  predicate Inv(c: Config) {
    match c
    case At(n, s) => NodeBounds(n, s)
    case Suspended(n, s, _) => NodeBounds(n, s)
    case Ended(s) => 0 <= s.codeIterations <= 3 && 0 <= s.reviewIterations <= 2
    case Unmapped(_, _, s) => 0 <= s.codeIterations <= 3 && 0 <= s.reviewIterations <= 2
  }

  /** A fresh run satisfies the bounds. */
  lemma StartBounds(s: CodingState)
    requires s.codeIterations == 0 && s.reviewIterations == 0
    ensures Inv(Start(s))
  {
  }

  /** Running stage `n` from a state within its bounds, fresh or resumed, leads to a
      configuration within bounds. */
  lemma AdvancePreservesBounds(n: Node, s: CodingState, env: Env, resume: Option<ResumePayload>)
    requires NodeBounds(n, s)
    ensures Inv(Advance(n, s, Handle(n, s, env, resume), env).next)
  {
    HandlerDeltas(n, s, env, resume);
    RoutedBounds(n, s, Handle(n, s, env, resume), env);
  }

  /** Whatever stage `n` produced, as long as it moved the counters as `HandlerDeltas`
      says, the edges lead to a configuration within bounds. */
  lemma RoutedBounds(n: Node, s: CodingState, r: StageResult, env: Env)
    requires NodeBounds(n, s)
    requires r.outcome.Updated? ==>
      && r.outcome.update.codeIterations == (if n == Coder then Put(1) else Keep)
      && r.outcome.update.reviewIterations == (if n == Reviewer then Put(1) else Keep)
    ensures Inv(Advance(n, s, r, env).next)
  {
    var next := Advance(n, s, r, env).next;
    if r.outcome.Updated? {
      var t := Reduce(s, r.outcome.update);
      assert t.codeIterations == s.codeIterations + (if n == Coder then 1 else 0);
      assert t.reviewIterations == s.reviewIterations + (if n == Reviewer then 1 else 0);
      if next.At? {
        var key := RouteKey(n, t, env);
        assert Follow(n, key) == Some(To(next.node));
        match n
        case Validate =>
          if next.node == Coder {
            assert key == "coder";
          }
        case Reviewer =>
          if next.node == Coder {
            assert key == "coder";
          }
        case _ =>
      }
    }
  }

  lemma StepPreservesBounds(c: Config, env: Env)
    requires c.At? && Inv(c)
    ensures Inv(Step(c, env).next)
  {
    AdvancePreservesBounds(c.node, c.state, env, None);
  }

  lemma ResumePreservesBounds(c: Config, env: Env, p: ResumePayload)
    requires c.Suspended? && Inv(c)
    ensures Inv(Resume(c, env, p).next)
  {
    AdvancePreservesBounds(c.node, c.state, env, Some(p));
  }

  /** A run with one answer per stage keeps codeIterations within 3 and reviewIterations
      within 2 up to its first suspension, however many steps it takes. */
  lemma {:induction false} RunPreservesBounds(c: Config, env: Env, fuel: nat)
    requires Inv(c)
    ensures Inv(Run(c, env, fuel).final)
    decreases fuel
  {
    if fuel > 0 && c.At? {
      StepPreservesBounds(c, env);
      RunPreservesBounds(Step(c, env).next, env, fuel - 1);
      RunUnfolds(c, env, fuel);
    }
  }

  /** What moves a run on from outside: a step of a run about to run a stage, or the
      resume of a parked run with the payload the user or the CI poller answered. Each
      carries what the collaborators answer at that point. */
  datatype Event = Go(env: Env) | Answer(env: Env, payload: ResumePayload)

  /** A whole run across its suspensions: each event in turn moves the run on; an event
      that does not fit where the run is (a step while parked, a resume while not) and
      any event after the run ended leave it where it is. */
  function Drive(c: Config, events: seq<Event>): Config
    decreases |events|
  {
    if events == [] then c
    else
      var next :=
        match events[0]
        case Go(env) => if c.At? then Step(c, env).next else c
        case Answer(env, p) => if c.Suspended? then Resume(c, env, p).next else c;
      Drive(next, events[1..])
  }

  /** Every run from a fresh state keeps codeIterations within 3 and reviewIterations
      within 2 through all of its steps and resumes, whatever the collaborators answer
      at each of them. */
  lemma {:induction false} DrivePreservesBounds(c: Config, events: seq<Event>)
    requires Inv(c)
    ensures Inv(Drive(c, events))
    decreases |events|
  {
    if events != [] {
      match events[0]
      case Go(env) =>
        if c.At? { StepPreservesBounds(c, env); }
        DrivePreservesBounds(if c.At? then Step(c, env).next else c, events[1..]);
      case Answer(env, p) =>
        if c.Suspended? { ResumePreservesBounds(c, env, p); }
        DrivePreservesBounds(if c.Suspended? then Resume(c, env, p).next else c, events[1..]);
    }
  }

  /** A fresh run keeps the bounds however it is driven. */
  lemma FreshRunBounded(s: CodingState, events: seq<Event>)
    requires s.codeIterations == 0 && s.reviewIterations == 0
    ensures Inv(Drive(Start(s), events))
  {
    StartBounds(s);
    DrivePreservesBounds(Start(s), events);
  }

  /** A step never lowers a counter. */
  lemma StepCountersMonotone(c: Config, env: Env)
    requires c.At?
    ensures var next := Step(c, env).next;
      next.At? || next.Ended? || next.Unmapped? ==>
        next.state.codeIterations >= c.state.codeIterations && next.state.reviewIterations >= c.state.reviewIterations
  {
    HandlerDeltas(c.node, c.state, env, None);
  }

  // ─── Scenarios ───

  /** Every run starts with hydrate, and hydrate always continues to clarify, even when
      it has marked the run ESCALATED; clarify then overwrites that status. */
  lemma HydrateAlwaysContinues(s: CodingState, env: Env)
    ensures Step(Start(s), env).next.At? && Step(Start(s), env).next.node == Clarify
    ensures Knowledge.Resolution(env.hydrate.registry, env.hydrate.issue).None? ==>
      Step(Start(s), env).next.state.status == Escalated
    ensures var t := Step(Step(Start(s), env).next, env).next;
      t.At? || t.Unmapped? ==> t.state.status == Planning || t.state.status == Clarifying
  {
    var c1 := Step(Start(s), env).next;
    assert c1 == At(Clarify, Reduce(s, HydrateNode.Hydrate(s, env.hydrate).outcome.update));
  }

  /** The validation environment fails every time: commands and a worktree are set
      and something fails. */
  predicate ValidationFails(s: CodingState, env: Env) {
    var ctx := s.context;
    && ctx.validationCommands.Some? && |ctx.validationCommands.value| > 0 && Truthy(ctx.worktreePath)
    && ValidateNode.Failures(ctx.validationCommands.value, env.validate) != []
  }

  /** The state after the coder stage. */
  function AfterCoder(s: CodingState): CodingState {
    Reduce(s, CoderNode.Coder(s).outcome.update)
  }

  /** The state after the validate stage. */
  function AfterValidate(s: CodingState, env: Env): CodingState {
    Reduce(s, ValidateNode.Validate(s, env.validate).outcome.update)
  }

  /** The state after the escalate stage. */
  function AfterEscalate(s: CodingState): CodingState {
    Reduce(s, EscalateNode(s).outcome.update)
  }

  /** The state after the escalate and cleanup stages. */
  function AfterEscalation(s: CodingState): CodingState {
    var e := AfterEscalate(s);
    Reduce(e, CleanupNode.Cleanup(e).outcome.update)
  }

  /** One step of `Run`: the stage run now, then the rest of the run. */
  lemma RunUnfolds(c: Config, env: Env, fuel: nat)
    requires c.At? && fuel > 0
    ensures Run(c, env, fuel).final == Run(Step(c, env).next, env, fuel - 1).final
    ensures Run(c, env, fuel).visited == [c.node] + Run(Step(c, env).next, env, fuel - 1).visited
  {
    assert Run(c, env, fuel) == RunAt(c.node, c.state, env, fuel - 1);
    assert Continue(c.node, c.state, env, fuel - 1).final == Run(Step(c, env).next, env, fuel - 1).final;
  }

  /** The coder always hands over to validate with one more code iteration. */
  lemma CoderStep(s: CodingState, env: Env)
    ensures Step(At(Coder, s), env).next == At(Validate, AfterCoder(s))
    ensures AfterCoder(s).context == s.context
    ensures AfterCoder(s).codeIterations == s.codeIterations + 1 && AfterCoder(s).reviewIterations == s.reviewIterations
  {
  }

  /** A run at the coder continues at validate. */
  lemma CoderRun(s: CodingState, env: Env, fuel: nat)
    requires fuel > 0
    ensures Run(At(Coder, s), env, fuel).final == Run(At(Validate, AfterCoder(s)), env, fuel - 1).final
    ensures Run(At(Coder, s), env, fuel).visited == [Coder] + Run(At(Validate, AfterCoder(s)), env, fuel - 1).visited
  {
    CoderStep(s, env);
    RunUnfolds(At(Coder, s), env, fuel);
  }

  /** Validation leaves the context and both counters alone. */
  lemma ValidateFields(s: CodingState, env: Env)
    ensures var t := AfterValidate(s, env);
      t.context == s.context && t.codeIterations == s.codeIterations && t.reviewIterations == s.reviewIterations
  {
  }

  /** A validate step that fails returns to the coder below the limit and escalates at it. */
  lemma FailedValidationStep(s: CodingState, env: Env)
    requires ValidationFails(s, env)
    ensures var t := AfterValidate(s, env);
      && t.context == s.context && t.codeIterations == s.codeIterations && t.reviewIterations == s.reviewIterations
      && Step(At(Validate, s), env).next == At(if s.codeIterations >= MAX_VALIDATION_LOOPS then Escalate else Coder, t)
  {
    ValidateNode.ValidateErrorIffFailures(s, env.validate);
  }

  /** A run at a failing validate continues at the coder below the limit and at escalate at it. */
  lemma FailedValidationRun(s: CodingState, env: Env, fuel: nat)
    requires ValidationFails(s, env) && fuel > 0
    ensures var next := At(if s.codeIterations >= MAX_VALIDATION_LOOPS then Escalate else Coder, AfterValidate(s, env));
      && Run(At(Validate, s), env, fuel).final == Run(next, env, fuel - 1).final
      && Run(At(Validate, s), env, fuel).visited == [Validate] + Run(next, env, fuel - 1).visited
  {
    FailedValidationStep(s, env);
    RunUnfolds(At(Validate, s), env, fuel);
  }

  /** Below the limit, a run at a failing validate continues at the coder. */
  lemma RetryRun(s: CodingState, env: Env, fuel: nat)
    requires ValidationFails(s, env) && fuel > 0 && s.codeIterations < MAX_VALIDATION_LOOPS
    ensures Run(At(Validate, s), env, fuel).final == Run(At(Coder, AfterValidate(s, env)), env, fuel - 1).final
    ensures Run(At(Validate, s), env, fuel).visited == [Validate] + Run(At(Coder, AfterValidate(s, env)), env, fuel - 1).visited
  {
    FailedValidationRun(s, env, fuel);
  }

  /** A run at escalate continues at cleanup. */
  lemma EscalateRun(s: CodingState, env: Env, fuel: nat)
    requires fuel > 0
    ensures Run(At(Escalate, s), env, fuel).final == Run(At(Cleanup, AfterEscalate(s)), env, fuel - 1).final
    ensures Run(At(Escalate, s), env, fuel).visited == [Escalate] + Run(At(Cleanup, AfterEscalate(s)), env, fuel - 1).visited
  {
    assert Step(At(Escalate, s), env).next == At(Cleanup, AfterEscalate(s));
    RunUnfolds(At(Escalate, s), env, fuel);
  }

  /** A run at cleanup ends after it, whatever fuel is left. */
  lemma CleanupRun(s: CodingState, env: Env, fuel: nat)
    requires fuel > 0
    ensures Run(At(Cleanup, s), env, fuel).final == Ended(Reduce(s, CleanupNode.Cleanup(s).outcome.update))
    ensures Run(At(Cleanup, s), env, fuel).visited == [Cleanup]
  {
    var e := Reduce(s, CleanupNode.Cleanup(s).outcome.update);
    assert Step(At(Cleanup, s), env).next == Ended(e);
    assert Run(Ended(e), env, fuel - 1) == Trace(Ended(e), [], []);
    RunUnfolds(At(Cleanup, s), env, fuel);
  }

  /** Escalation marks the run ESCALATED, cleanup keeps that status, and neither touches
      the counters. */
  lemma EscalationFields(s: CodingState)
    ensures AfterEscalation(s).status == Escalated
    ensures AfterEscalation(s).codeIterations == s.codeIterations && AfterEscalation(s).reviewIterations == s.reviewIterations
  {
  }

  /** From escalate the run takes exactly two steps, escalate then cleanup, whatever fuel
      is left, and ends ESCALATED with the counters as they were. */
  lemma EscalationTerminates(s: CodingState, env: Env, fuel: nat)
    requires fuel >= 2
    ensures var tr := Run(At(Escalate, s), env, fuel);
      && tr.visited == [Escalate, Cleanup] && tr.final.Ended?
      && tr.final.state.status == Escalated
      && tr.final.state.codeIterations == s.codeIterations && tr.final.state.reviewIterations == s.reviewIterations
  {
    EscalateRun(s, env, fuel);
    CleanupRun(AfterEscalate(s), env, fuel - 1);
    EscalationFields(s);
  }

  /** A failing validation at the limit escalates, and the run then ends ESCALATED. */
  lemma FailAtLimit(s: CodingState, env: Env, fuel: nat)
    requires s.codeIterations == 2 && s.reviewIterations == 0
    requires ValidationFails(s, env) && fuel >= 3
    ensures var tr := Run(At(Validate, s), env, fuel);
      && tr.visited == [Validate, Escalate, Cleanup]
      && tr.final.Ended? && tr.final.state.status == Escalated
      && tr.final.state.codeIterations == 2 && tr.final.state.reviewIterations == 0
  {
    FailedValidationRun(s, env, fuel);
    ValidateFields(s, env);
    EscalationTerminates(AfterValidate(s, env), env, fuel - 1);
  }

  /** One failed coder-validate round below the limit returns to the coder. */
  lemma FailBelowLimit(s: CodingState, env: Env)
    requires s.codeIterations < MAX_VALIDATION_LOOPS - 1
    requires ValidationFails(s, env)
    ensures Step(At(Coder, s), env).next == At(Validate, AfterCoder(s))
    ensures Step(At(Validate, AfterCoder(s)), env).next == At(Coder, AfterValidate(AfterCoder(s), env))
    ensures var t := AfterValidate(AfterCoder(s), env);
      && t.context == s.context && t.codeIterations == s.codeIterations + 1 && t.reviewIterations == s.reviewIterations
  {
    CoderStep(s, env);
    FailedValidationStep(AfterCoder(s), env);
  }

  /** The second coder round: the coder runs, validation fails at the limit, and the run
      escalates, cleans up and ends ESCALATED. */
  lemma SecondRoundEscalates(s: CodingState, env: Env, fuel: nat)
    requires s.codeIterations == 1 && s.reviewIterations == 0
    requires ValidationFails(s, env) && fuel >= 4
    ensures var tr := Run(At(Coder, s), env, fuel);
      && tr.visited == [Coder, Validate, Escalate, Cleanup]
      && tr.final.Ended? && tr.final.state.status == Escalated
      && tr.final.state.codeIterations == 2 && tr.final.state.reviewIterations == 0
  {
    CoderStep(s, env);
    assert ValidationFails(AfterCoder(s), env);
    FailAtLimit(AfterCoder(s), env, fuel - 1);
    CoderRun(s, env, fuel);
  }

  /** A coder-validate round adds one code iteration, keeps the context, and so leaves
      validation failing when it failed before. */
  lemma RoundFields(s: CodingState, env: Env)
    requires ValidationFails(s, env)
    ensures var t := AfterValidate(AfterCoder(s), env);
      && AfterCoder(s).codeIterations == s.codeIterations + 1
      && t.codeIterations == s.codeIterations + 1 && t.reviewIterations == s.reviewIterations
      && ValidationFails(AfterCoder(s), env) && ValidationFails(t, env)
  {
    CoderStep(s, env);
    ValidateFields(AfterCoder(s), env);
  }

  /** A failed coder-validate round below the limit: the run goes through coder and
      validate and continues at the coder with the round's state. */
  lemma FailedRoundRun(s: CodingState, env: Env, fuel: nat)
    requires s.codeIterations < MAX_VALIDATION_LOOPS - 1
    requires ValidationFails(s, env) && fuel >= 2
    ensures var t := AfterValidate(AfterCoder(s), env);
      && Run(At(Coder, s), env, fuel).final == Run(At(Coder, t), env, fuel - 2).final
      && Run(At(Coder, s), env, fuel).visited == [Coder, Validate] + Run(At(Coder, t), env, fuel - 2).visited
  {
    RoundFields(s, env);
    CoderRun(s, env, fuel);
    RetryRun(AfterCoder(s), env, fuel - 1);
    var later := Run(At(Coder, AfterValidate(AfterCoder(s), env)), env, fuel - 2).visited;
    assert [Coder] + ([Validate] + later) == [Coder, Validate] + later;
  }

  /** Starting at the coder with no iterations and every validation failing, the coder
      runs exactly twice, and the run escalates, cleans up and ends ESCALATED with
      codeIterations = 2, however many steps it is given beyond those six. */
  lemma EscalatesAfterTwoFailures(s: CodingState, env: Env, fuel: nat)
    requires s.codeIterations == 0 && s.reviewIterations == 0
    requires ValidationFails(s, env) && fuel >= 6
    ensures var tr := Run(At(Coder, s), env, fuel);
      && tr.visited == [Coder, Validate, Coder, Validate, Escalate, Cleanup]
      && tr.final.Ended? && tr.final.state.status == Escalated
      && tr.final.state.codeIterations == 2 && tr.final.state.reviewIterations == 0
  {
    RoundFields(s, env);
    FailedRoundRun(s, env, fuel);
    SecondRoundEscalates(AfterValidate(AfterCoder(s), env), env, fuel - 2);
  }

  /** Cancelling at plan approval makes the router return "__end__", which the approval
      edge does not map: the run stops without reaching cleanup. */
  lemma ApprovalCancelIsUnmapped(s: CodingState, env: Env, p: ResumePayload)
    requires p.action == Cancel
    ensures Resume(Suspended(AwaitApproval, s, ReviewPlan(s.plan)), env, p).next.Unmapped?
    ensures Resume(Suspended(AwaitApproval, s, ReviewPlan(s.plan)), env, p).next.key == "__end__"
  {
    ApprovalEndUnmapped();
  }

  /** An empty reviewer answer, or "REJECTED:" and only whitespace, passes review: the
      run moves on to finalize. */
  lemma EmptyReviewFinalizes(s: CodingState, env: Env, ws: string)
    requires var o := env.reviewer.output; o == "" || (o == "REJECTED:" + ws && ws != [] && Text.Blank(ws))
    ensures Step(At(Reviewer, s), env).next.At? && Step(At(Reviewer, s), env).next.node == Finalize
  {
    ReviewerNode.EmptyFeedbackPasses(s, env.reviewer, ws);
  }

  /** A stage that suspends does so before any state change, and resuming the run
      re-runs that same stage. */
  lemma SuspendKeepsState(c: Config, env: Env)
    requires c.At?
    ensures Step(c, env).next.Suspended? ==>
      Step(c, env).next.state == c.state && Step(c, env).next.node == c.node
      && c.node in {AwaitClarification, AwaitApproval, AwaitCi}
  {
  }
}
