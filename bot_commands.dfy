/** The Telegram bot's text messages: a comment awaited after a revise press comes
    first, then the /start, /status and /cancel commands, then a Jira link, which
    launches a run. The first Jira link in a text is found by the pattern
    `https?://[^\s]+/browse/[A-Z]\w+-\d+`, which is an input here. */
module BotCommands {
  import opened Wrappers
  import opened Text
  import opened Domain
  import opened RunStore
  import opened Stage
  import opened BotCallbacks

  /** A chat message: its chat, its sender if known, and its text if it has one. */
  datatype Message = Message(chatId: int, fromId: Option<int>, text: Option<string>)

  const START_TEXT: string :=
    "Minions Bot 🤖\n\nОтправьте Jira URL для создания рана.\n\nКоманды:\n/status — активные раны\n/cancel <runId> — отменить ран"

  /** What a message is taken as. */
  datatype Route =
    | Ignored
    | ReviseComment(runId: string)
    | StartHelp
    | StatusList
    | CancelRun(runId: string)
    | Launch(ticketUrl: string)

  /** The dispatch order of `handleMessage` on the trimmed text: nothing for an empty
      text; a comment when the chat owes one; then the commands; then a Jira link. */
  function RouteOf(text: string, pending: Option<string>, jiraUrl: Option<string>): (r: Route)
    ensures r == Ignored <==> (text == ""
      || (pending.None? && text != "/start" && text != "/status" && !StartsWith(text, "/cancel ") && jiraUrl.None?))
    ensures text != "" && pending.Some? ==> r == ReviseComment(pending.value)
    ensures r.CancelRun? ==> StartsWith(text, "/cancel ") && r.runId == Trim(text[8..])
    ensures r.Launch? ==> jiraUrl == Some(r.ticketUrl)
  {
    if text == "" then Ignored
    else if pending.Some? then ReviseComment(pending.value)
    else if text == "/start" then StartHelp
    else if text == "/status" then StatusList
    else if StartsWith(text, "/cancel ") then CancelRun(Trim(text[8..]))
    else if jiraUrl.Some? then Launch(jiraUrl.value)
    else Ignored
  }

  /** An awaited comment takes any text, commands included: "/start" sent after a revise
      press is the comment, not the command. */
  lemma PendingComesFirst(text: string, runId: string, jiraUrl: Option<string>)
    requires text != ""
    ensures RouteOf(text, Some(runId), jiraUrl) == ReviseComment(runId)
    ensures RouteOf("/start", Some(runId), jiraUrl) == ReviseComment(runId)
  {
  }

  /** Without an awaited comment, /start and /status win over a Jira link in the same text. */
  lemma CommandsBeforeLinks(text: string, url: string)
    requires text == "/start" || text == "/status"
    ensures RouteOf(text, None, Some(url)) == (if text == "/start" then StartHelp else StatusList)
  {
  }

  /** The runs /status lists: those not done, failed or escalated, in the listed order. */
  function ActiveRuns(runs: seq<Run>): (r: seq<Run>)
    ensures |r| <= |runs|
    ensures forall x :: x in r <==> x in runs && !x.status.IsTerminal()
  {
    if runs == [] then []
    else
      var rest := ActiveRuns(runs[1..]);
      assert forall x :: x in runs <==> x == runs[0] || x in runs[1..];
      if runs[0].status.IsTerminal() then rest else [runs[0]] + rest
  }

  /** /status shows exactly the stored runs that are not done, failed or escalated. */
  lemma StatusListsActive(runs: map<string, Run>, order: seq<string>, x: Run)
    requires forall id :: id in runs <==> id in order
    ensures x in ActiveRuns(Listed(runs, order, None)) <==>
      (exists id :: id in runs && runs[id] == x) && !x.status.IsTerminal()
  {
    ListedIff(runs, order, None, x);
    if exists id :: id in runs && runs[id] == x {
      var id :| id in runs && runs[id] == x;
      var i :| 0 <= i < |order| && order[i] == id;
    }
  }

  /** `r.id.slice(0, 8)`: the id's first 8 UTF-16 code units, the whole id when shorter. */
  function ShortId(id: string): (r: string)
    ensures StartsWith(id, r) && Utf16Length(r) <= 8
    ensures Utf16Length(id) <= 8 ==> r == id
    ensures |r| < |id| ==> 8 < Utf16Length(r) + Units(id[|r|])
  {
    Utf16Prefix(id, 8)
  }

  function StatusLine(run: Run): string {
    "• <code>" + ShortId(run.id) + "</code> " + run.status.Name() + " — " + run.payload.ticketUrl
  }

  function StatusLines(runs: seq<Run>): (r: seq<string>)
    ensures |r| == |runs| && forall i :: 0 <= i < |runs| ==> r[i] == StatusLine(runs[i])
  {
    if runs == [] then [] else [StatusLine(runs[0])] + StatusLines(runs[1..])
  }

  /** The reply to /status. */
  function StatusReply(chat: int, active: seq<Run>): BotEffect {
    if active == [] then SendText(chat, "Нет активных ранов.", None, false)
    else SendText(chat, Join(StatusLines(active), "\n"), Some("HTML"), false)
  }

  /** The requester of a launched run: the sender, else the chat. */
  function RequesterId(msg: Message): string {
    IntToString(msg.fromId.GetOr(msg.chatId))
  }

  /** The effects of a routed message from `chat` with trimmed text `text`; `listed` is
      what the store lists and `stored` its runs by id. */
  function Respond(msg: Message, text: string, route: Route, listed: seq<Run>, stored: map<string, Run>,
                   newRunId: string): (effects: seq<BotEffect>)
    ensures route == Ignored ==> effects == []
    ensures route.ReviseComment? ==>
      effects ==
        [ResumeThread(route.runId, ResumePayload(Revise, Some(text), None)),
         SendText(msg.chatId, "Комментарий отправлен для рана " + route.runId, None, false)]
    ensures route == StartHelp ==> effects == [SendText(msg.chatId, START_TEXT, None, false)]
    ensures route == StatusList ==> effects == [StatusReply(msg.chatId, ActiveRuns(listed))]
    ensures route.CancelRun? && route.runId !in stored ==>
      effects == [SendText(msg.chatId, "Ран " + route.runId + " не найден.", None, false)]
    ensures route.CancelRun? && route.runId in stored ==>
      effects ==
        [ResumeThread(route.runId, ResumePayload(Cancel, Some("Cancelled via TG bot"), None)),
         SendText(msg.chatId, "Отмена рана " + route.runId + "...", None, false)]
    ensures route.Launch? ==>
      effects ==
        [LaunchRun(RunPayload(route.ticketUrl, IntToString(msg.chatId), RequesterId(msg))),
         SendText(msg.chatId, "Задача взята в работу 🚀\nРан: <code>" + newRunId + "</code>", Some("HTML"), false)]
    ensures forall i :: 0 <= i < |effects| && effects[i].ResumeThread? ==>
      (route.ReviseComment? || route.CancelRun?) && effects[i].threadId == route.runId
  {
    var chat := msg.chatId;
    match route
    case Ignored => []
    case ReviseComment(runId) =>
      [ResumeThread(runId, ResumePayload(Revise, Some(text), None)),
       SendText(chat, "Комментарий отправлен для рана " + runId, None, false)]
    case StartHelp => [SendText(chat, START_TEXT, None, false)]
    case StatusList => [StatusReply(chat, ActiveRuns(listed))]
    case CancelRun(runId) =>
      if runId !in stored then [SendText(chat, "Ран " + runId + " не найден.", None, false)]
      else [ResumeThread(runId, ResumePayload(Cancel, Some("Cancelled via TG bot"), None)),
            SendText(chat, "Отмена рана " + runId + "...", None, false)]
    case Launch(ticketUrl) =>
      [LaunchRun(RunPayload(ticketUrl, IntToString(chat), RequesterId(msg))),
       SendText(chat, "Задача взята в работу 🚀\nРан: <code>" + newRunId + "</code>", Some("HTML"), false)]
  }

  /** The trimmed text of a message; a message without text has the empty text. */
  function TextOf(msg: Message): string {
    Trim(msg.text.GetOr(""))
  }

  /** `handleMessage`. `findJiraUrl` gives the first Jira link in a text, and `newRunId`
      is the id the launch gives a new run. A comment consumes the chat's awaited
      revise; nothing else touches it. */
  method HandleMessage(msg: Message, pending: PendingRevise, store: Store,
                       findJiraUrl: string -> Option<string>, newRunId: string) returns (effects: seq<BotEffect>)
    requires store.Valid()
    modifies pending
    ensures var awaited := if msg.chatId in old(pending.waiting) then Some(old(pending.waiting)[msg.chatId]) else None;
      var route := RouteOf(TextOf(msg), awaited, findJiraUrl(TextOf(msg)));
      effects == Respond(msg, TextOf(msg), route, Listed(store.runs, store.order, None), store.runs, newRunId)
      && pending.waiting == if route.ReviseComment? then old(pending.waiting) - {msg.chatId} else old(pending.waiting)
  {
    var text := TextOf(msg);
    var chat := msg.chatId;
    var awaited := if chat in pending.waiting then Some(pending.waiting[chat]) else None;
    var route := RouteOf(text, awaited, findJiraUrl(text));
    if route.ReviseComment? {
      pending.waiting := pending.waiting - {chat};
    }
    var listed := [];
    if route == StatusList {
      listed := store.List(None);
    }
    effects := Respond(msg, text, route, listed, store.runs, newRunId);
    if route != StatusList {
      assert Respond(msg, text, route, listed, store.runs, newRunId)
          == Respond(msg, text, route, Listed(store.runs, store.order, None), store.runs, newRunId);
    }
  }
}
