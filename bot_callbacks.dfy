/** The Telegram bot's button presses: the callback data `mn:<action>:<runId>` is decoded,
    a revise press waits for the chat's next message as the comment, and approve or
    cancel resume the run's thread with that action. The effects of a press (graph
    resumes and Bot API calls) are returned in order. */
module BotCallbacks {
  import opened Wrappers
  import opened Text
  import opened Domain
  import opened RunStore
  import opened Stage
  import opened Telegram

  /** What the bot does: resume a run's thread, answer a button press, send a chat
      message (asking for a reply when `forceReply`), or launch a run. */
  datatype BotEffect =
    | ResumeThread(threadId: string, payload: ResumePayload)
    | AnswerCallback(callbackId: string, text: string)
    | SendText(chatId: int, text: string, parseMode: Option<string>, forceReply: bool)
    | LaunchRun(params: RunPayload)

  /** A button press: its id, the id of the chat holding the message, and the data. */
  datatype CallbackQuery = CallbackQuery(id: string, chatId: Option<int>, data: Option<string>)

  /** The characters `.` does not match. */
  predicate LineTerminator(c: char) {
    c == '\n' || c == '\r' || c == '\U{2028}' || c == '\U{2029}'
  }

  /** A run id as `(.+)$` accepts it: non-empty, on one line. */
  predicate IsRunIdText(s: string) {
    s != [] && forall i :: 0 <= i < |s| ==> !LineTerminator(s[i])
  }

  /** The actions a button can carry. */
  predicate ButtonAction(a: ResumeAction) {
    a == Approve || a == Revise || a == Cancel
  }

  /** `data` is the callback data of action `a` for run `runId`, as `CB_RE` reads it. */
  predicate Encodes(data: string, a: ResumeAction, runId: string) {
    ButtonAction(a) && IsRunIdText(runId) && data == "mn:" + a.Name() + ":" + runId
  }

  /** The run id after `prefix`, when `data` starts with it and the rest is a run id. */
  function After(data: string, prefix: string): (r: Option<string>)
    ensures r.Some? <==> StartsWith(data, prefix) && IsRunIdText(data[|prefix|..])
    ensures r.Some? ==> data == prefix + r.value
  {
    if StartsWith(data, prefix) && IsRunIdText(data[|prefix|..]) then
      assert data == data[..|prefix|] + data[|prefix|..];
      Some(data[|prefix|..])
    else None
  }

  /** `CB_RE.exec`: the action and run id, or nothing when the pattern does not match. */
  function DecodeCallback(data: string): (r: Option<(ResumeAction, string)>)
    ensures r.Some? ==> Encodes(data, r.value.0, r.value.1)
  {
    match After(data, "mn:approve:")
    case Some(id) => Some((Approve, id))
    case None =>
      match After(data, "mn:revise:")
      case Some(id) => Some((Revise, id))
      case None =>
        match After(data, "mn:cancel:")
        case Some(id) => Some((Cancel, id))
        case None => None
  }

  lemma PrefixOf(a: ResumeAction, runId: string)
    ensures StartsWith("mn:" + a.Name() + ":" + runId, "mn:" + a.Name() + ":")
    ensures ("mn:" + a.Name() + ":" + runId)[|"mn:" + a.Name() + ":"|..] == runId
  {
    var p := "mn:" + a.Name() + ":";
    assert "mn:" + a.Name() + ":" + runId == p + runId;
  }

  /** Decoding undoes encoding: the data of a button action decodes to that action and run. */
  lemma DecodeEncoded(data: string, a: ResumeAction, runId: string)
    requires Encodes(data, a, runId)
    ensures DecodeCallback(data) == Some((a, runId))
  {
    PrefixOf(a, runId);
    var s := data;
    if a == Revise {
      assert s[3] == 'r';
      assert !StartsWith(s, "mn:approve:") by { assert "mn:approve:"[3] == 'a'; }
    } else if a == Cancel {
      assert s[3] == 'c';
      assert !StartsWith(s, "mn:approve:") by { assert "mn:approve:"[3] == 'a'; }
      assert !StartsWith(s, "mn:revise:") by { assert "mn:revise:"[3] == 'r'; }
    }
  }

  /** Round trip with the channel's encoder: a button whose body names approve, revise or
      cancel decodes to that action and the run it was built for. */
  lemma CallbackRoundTrip(caption: string, endpoint: string, a: ResumeAction, runId: string)
    requires ButtonAction(a) && IsRunIdText(runId)
    ensures DecodeCallback(BuildCallbackData(NotifyAction(caption, endpoint, map["action" := a.Name()]), runId)) == Some((a, runId))
  {
    DecodeEncoded("mn:" + a.Name() + ":" + runId, a, runId);
  }

  /** The run's cancel button decodes to a cancel of that run. */
  lemma CancelButtonRoundTrip(caption: string, runId: string)
    requires IsRunIdText(runId)
    ensures DecodeCallback(BuildCallbackData(NotifyAction(caption, CancelEndpoint(runId), map[]), runId)) == Some((Cancel, runId))
  {
    CancelButtonData(caption, runId);
    DecodeEncoded("mn:cancel:" + runId, Cancel, runId);
  }

  /** Data carrying "retry" matches none of the three prefixes. */
  lemma RetryRejected(runId: string)
    ensures DecodeCallback("mn:retry:" + runId) == None
  {
    var r := "mn:retry:" + runId;
    assert r[3] == 'r' && r[5] == 't';
    assert !StartsWith(r, "mn:approve:") by { assert "mn:approve:"[3] == 'a'; }
    assert !StartsWith(r, "mn:revise:") by { assert "mn:revise:"[5] == 'v'; }
    assert !StartsWith(r, "mn:cancel:") by { assert "mn:cancel:"[3] == 'c'; }
  }

  /** Data carrying "close" matches none of the three prefixes. */
  lemma CloseRejected(runId: string)
    ensures DecodeCallback("mn:close:" + runId) == None
  {
    var c := "mn:close:" + runId;
    assert c[3] == 'c' && c[4] == 'l';
    assert !StartsWith(c, "mn:approve:") by { assert "mn:approve:"[3] == 'a'; }
    assert !StartsWith(c, "mn:revise:") by { assert "mn:revise:"[3] == 'r'; }
    assert !StartsWith(c, "mn:cancel:") by { assert "mn:cancel:"[4] == 'a'; }
  }

  /** The CI-failure buttons encode retry and close, which the pattern does not accept,
      so pressing them does nothing. */
  lemma CiButtonsIgnored(caption: string, endpoint: string, runId: string)
    ensures DecodeCallback(BuildCallbackData(NotifyAction(caption, endpoint, map["action" := "retry"]), runId)) == None
    ensures DecodeCallback(BuildCallbackData(NotifyAction(caption, endpoint, map["action" := "close"]), runId)) == None
  {
    RetryRejected(runId);
    CloseRejected(runId);
    assert "mn:" + "retry" + ":" + runId == "mn:retry:" + runId;
    assert "mn:" + "close" + ":" + runId == "mn:close:" + runId;
  }

  /** What handling the press `cb` does, given the waiting map `before` it: the
      effects, and the waiting map `after` it. Presses without data or outside a chat,
      and data the pattern rejects, do nothing. Revise remembers the run for the chat
      and asks for a comment; approve and cancel resume the run with exactly that
      action and answer the press (`resumeFails` is whether the resume raises). */
  predicate CallbackHandled(cb: CallbackQuery, resumeFails: bool, before: map<int, string>,
                            after: map<int, string>, effects: seq<BotEffect>)
  {
    if !Truthy(cb.data) || cb.chatId.None? || cb.chatId.value == 0 || DecodeCallback(cb.data.value).None? then
      effects == [] && after == before
    else
      var (action, runId) := DecodeCallback(cb.data.value).value;
      var chat := cb.chatId.value;
      if action == Revise then
        after == before[chat := runId]
        && effects == [AnswerCallback(cb.id, "Напишите комментарий к ревизии"),
                       SendText(chat, "Напишите комментарий для ревизии:", None, true)]
      else
        after == before
        && effects == [ResumeThread(runId, ResumePayload(action, None, None)),
                       AnswerCallback(cb.id, if resumeFails then "Ошибка обработки"
                                             else if action == Approve then "Принято ✅" else "Отменено ❌")]
  }

  /** The chats whose revise button was pressed, each with the run awaiting its comment;
      shared with the message handler. */
  class PendingRevise {
    var waiting: map<int, string>

    constructor()
      ensures waiting == map[]
    {
      waiting := map[];
    }

    /** `handleCallback`: the press is handled as `CallbackHandled` describes, and the
        waiting map is the only state it changes. */
    method HandleCallback(cb: CallbackQuery, resumeFails: bool) returns (effects: seq<BotEffect>)
      modifies this
      ensures CallbackHandled(cb, resumeFails, old(waiting), waiting, effects)
    {
      if !Truthy(cb.data) || cb.chatId.None? || cb.chatId.value == 0 {
        return [];
      }
      var chat := cb.chatId.value;
      var decoded := DecodeCallback(cb.data.value);
      if decoded.None? {
        return [];
      }
      var (action, runId) := decoded.value;
      if action == Revise {
        waiting := waiting[chat := runId];
        return [AnswerCallback(cb.id, "Напишите комментарий к ревизии"),
                SendText(chat, "Напишите комментарий для ревизии:", None, true)];
      }
      var answer := if resumeFails then "Ошибка обработки" else if action == Approve then "Принято ✅" else "Отменено ❌";
      effects := [ResumeThread(runId, ResumePayload(action, None, None)), AnswerCallback(cb.id, answer)];
    }
  }
}
