/** The run state record with one channel per field, the partial updates that
    stage handlers return, and the reducer that folds an update into the state:
    the two iteration counters add, every other channel is last-write-wins. */
module State {
  import opened Wrappers
  import opened Domain

  datatype CodingState = CodingState(
    runId: string,
    status: RunStatus,
    payload: RunPayload,
    context: RunContext,
    plan: Option<string>,
    codeIterations: int,
    reviewIterations: int,
    error: Option<string>,
    escalationReason: Option<string>,
    resumeAction: Option<ResumeAction>,
    resumeComment: Option<string>,
    questions: Option<seq<string>>,
    answers: Option<seq<string>>,
    ciStatus: Option<string>,
    ciBuildUrl: Option<string>)

  /** One channel of a partial update: the key is absent (`Keep`) or present with a
      value (`Put`); for optional channels `Put(None)` is an explicit `undefined`. */
  datatype Write<T> = Keep | Put(value: T)

  datatype Update = Update(
    runId: Write<string>,
    status: Write<RunStatus>,
    payload: Write<RunPayload>,
    context: Write<RunContext>,
    plan: Write<Option<string>>,
    codeIterations: Write<int>,
    reviewIterations: Write<int>,
    error: Write<Option<string>>,
    escalationReason: Write<Option<string>>,
    resumeAction: Write<Option<ResumeAction>>,
    resumeComment: Write<Option<string>>,
    questions: Write<Option<seq<string>>>,
    answers: Write<Option<seq<string>>>,
    ciStatus: Write<Option<string>>,
    ciBuildUrl: Write<Option<string>>)

  /** The update that writes no channel. */
  const NoUpdate: Update :=
    Update(Keep, Keep, Keep, Keep, Keep, Keep, Keep, Keep, Keep, Keep, Keep, Keep, Keep, Keep, Keep)

  /** Every channel's default value. */
  function Initial(): CodingState {
    CodingState(
      "", Received, RunPayload("", "", ""), BareContext("", "", "", ""), None,
      0, 0, None, None, None, None, None, None, None, None)
  }

  /** The last-write-wins reducer `(_prev, next) => next`. */
  function Overwrite<T>(prev: T, w: Write<T>): T {
    match w
    case Keep => prev
    case Put(next) => next
  }

  /** The additive reducer `(prev, next) => prev + next`. */
  function Add(prev: int, w: Write<int>): int {
    match w
    case Keep => prev
    case Put(next) => prev + next
  }

  /** The amount an update adds to a counter (0 when the key is absent). */
  function Delta(w: Write<int>): int {
    match w
    case Keep => 0
    case Put(d) => d
  }

  /** Applies every channel's reducer to the keys present in the update. */
  function Reduce(s: CodingState, u: Update): CodingState {
    CodingState(
      Overwrite(s.runId, u.runId),
      Overwrite(s.status, u.status),
      Overwrite(s.payload, u.payload),
      Overwrite(s.context, u.context),
      Overwrite(s.plan, u.plan),
      Add(s.codeIterations, u.codeIterations),
      Add(s.reviewIterations, u.reviewIterations),
      Overwrite(s.error, u.error),
      Overwrite(s.escalationReason, u.escalationReason),
      Overwrite(s.resumeAction, u.resumeAction),
      Overwrite(s.resumeComment, u.resumeComment),
      Overwrite(s.questions, u.questions),
      Overwrite(s.answers, u.answers),
      Overwrite(s.ciStatus, u.ciStatus),
      Overwrite(s.ciBuildUrl, u.ciBuildUrl))
  }

  /** The later of two writes to a last-write-wins channel. */
  function Later<T>(first: Write<T>, second: Write<T>): Write<T> {
    if second.Put? then second else first
  }

  /** Two counter writes in sequence amount to one write of their sum. */
  function Sum(first: Write<int>, second: Write<int>): Write<int> {
    if first.Keep? && second.Keep? then Keep else Put(Delta(first) + Delta(second))
  }

  /** The single update equivalent to applying `first` and then `second`. */
  function Then(first: Update, second: Update): Update {
    Update(
      Later(first.runId, second.runId),
      Later(first.status, second.status),
      Later(first.payload, second.payload),
      Later(first.context, second.context),
      Later(first.plan, second.plan),
      Sum(first.codeIterations, second.codeIterations),
      Sum(first.reviewIterations, second.reviewIterations),
      Later(first.error, second.error),
      Later(first.escalationReason, second.escalationReason),
      Later(first.resumeAction, second.resumeAction),
      Later(first.resumeComment, second.resumeComment),
      Later(first.questions, second.questions),
      Later(first.answers, second.answers),
      Later(first.ciStatus, second.ciStatus),
      Later(first.ciBuildUrl, second.ciBuildUrl))
  }

  /** The initial state: status RECEIVED, empty-string payload and context fields,
      both counters 0 and every optional channel undefined. */
  lemma InitialDefaults()
    ensures Initial().status == Received && Initial().runId == ""
    ensures Initial().payload == RunPayload("", "", "")
    ensures Initial().context.runId == "" && Initial().context.ticketUrl == ""
    ensures Initial().context.chatId == "" && Initial().context.requesterId == ""
    ensures Initial().codeIterations == 0 && Initial().reviewIterations == 0
    ensures Initial().plan.None? && Initial().error.None? && Initial().escalationReason.None?
    ensures Initial().resumeAction.None? && Initial().resumeComment.None?
    ensures Initial().questions.None? && Initial().answers.None?
    ensures Initial().ciStatus.None? && Initial().ciBuildUrl.None?
  {
  }

  /** An update that writes nothing leaves the state as it was. */
  lemma ReduceNoUpdate(s: CodingState)
    ensures Reduce(s, NoUpdate) == s
  {
  }

  /** The counters combine by addition: the new value is the old one plus the delta,
      and a delta of 1 applied to 0 yields 1. */
  lemma CountersAdd(s: CodingState, u: Update)
    ensures Reduce(s, u).codeIterations == s.codeIterations + Delta(u.codeIterations)
    ensures Reduce(s, u).reviewIterations == s.reviewIterations + Delta(u.reviewIterations)
    ensures s.codeIterations == 0 && u.codeIterations == Put(1) ==> Reduce(s, u).codeIterations == 1
  {
  }

  /** A last-write-wins channel went from `prev` to `next` under write `w`. */
  predicate Written<T(==)>(prev: T, w: Write<T>, next: T) {
    (w.Put? ==> next == w.value) && (w.Keep? ==> next == prev)
  }

  /** Every other channel is last-write-wins: a present key replaces the old value,
      even when it is an explicit `undefined`, and an absent key keeps it. */
  lemma LastWriteWins(s: CodingState, u: Update)
    ensures var t := Reduce(s, u);
      && Written(s.runId, u.runId, t.runId)
      && Written(s.status, u.status, t.status)
      && Written(s.payload, u.payload, t.payload)
      && Written(s.context, u.context, t.context)
      && Written(s.plan, u.plan, t.plan)
      && Written(s.error, u.error, t.error)
      && Written(s.escalationReason, u.escalationReason, t.escalationReason)
      && Written(s.resumeAction, u.resumeAction, t.resumeAction)
      && Written(s.resumeComment, u.resumeComment, t.resumeComment)
      && Written(s.questions, u.questions, t.questions)
      && Written(s.answers, u.answers, t.answers)
      && Written(s.ciStatus, u.ciStatus, t.ciStatus)
      && Written(s.ciBuildUrl, u.ciBuildUrl, t.ciBuildUrl)
    ensures u.error == Put(None) ==> Reduce(s, u).error.None?
    ensures u.resumeComment == Put(None) ==> Reduce(s, u).resumeComment.None?
    ensures u.questions == Put(None) ==> Reduce(s, u).questions.None?
  {
  }

  /** Reducing two updates in turn is reducing their combination: overwrites keep the
      later write, counter deltas add up. */
  lemma ReduceThen(s: CodingState, first: Update, second: Update)
    ensures Reduce(Reduce(s, first), second) == Reduce(s, Then(first, second))
  {
  }

  /** Counters never decrease under updates whose deltas are non-negative. */
  lemma CountersMonotone(s: CodingState, u: Update)
    requires Delta(u.codeIterations) >= 0 && Delta(u.reviewIterations) >= 0
    ensures Reduce(s, u).codeIterations >= s.codeIterations
    ensures Reduce(s, u).reviewIterations >= s.reviewIterations
  {
  }
}
