/** The Telegram notification channel: the HTML text of a notification, the inline
    buttons and their callback data, and the per-run message ids that let a later
    notification edit the run's message in place. The Bot API's answers are inputs. */
module Telegram {
  import opened Wrappers
  import opened Text
  import opened Domain

  const TG_MSG_LIMIT: int := 4096
  const TRUNCATED_MARKER: string := "\n…(truncated)"

  /** `s` with every `c` replaced by `rep` (a global `replace` of one character). */
  function ReplaceAll(s: string, c: char, rep: string): (r: string)
    decreases |s|
  {
    if s == [] then [] else (if s[0] == c then rep else [s[0]]) + ReplaceAll(s[1..], c, rep)
  }

  /** `escHtml`: '&' first, then '<', then '>'. */
  function EscHtml(s: string): string {
    ReplaceAll(ReplaceAll(ReplaceAll(s, '&', "&amp;"), '<', "&lt;"), '>', "&gt;")
  }

  /** The entity for one character: the reference definition of escaping. */
  function EscChar(c: char): string {
    if c == '&' then "&amp;" else if c == '<' then "&lt;" else if c == '>' then "&gt;" else [c]
  }

  /** Every character replaced by its entity in one pass. */
  function EscapeEach(s: string): (r: string)
    ensures forall i :: 0 <= i < |r| ==> r[i] != '<' && r[i] != '>'
    decreases |s|
  {
    if s == [] then []
    else
      var rest := EscapeEach(s[1..]);
      var head := EscChar(s[0]);
      assert forall i :: |head| <= i < |head + rest| ==> (head + rest)[i] == rest[i - |head|];
      head + rest
  }

  lemma {:induction false} ReplaceAllAppend(a: string, b: string, c: char, rep: string)
    ensures ReplaceAll(a + b, c, rep) == ReplaceAll(a, c, rep) + ReplaceAll(b, c, rep)
    decreases |a|
  {
    if a == [] {
      assert a + b == b;
    } else {
      assert (a + b)[1..] == a[1..] + b;
      ReplaceAllAppend(a[1..], b, c, rep);
    }
  }

  lemma {:induction false} ReplaceAllAbsent(s: string, c: char, rep: string)
    requires forall i :: 0 <= i < |s| ==> s[i] != c
    ensures ReplaceAll(s, c, rep) == s
    decreases |s|
  {
    if s != [] {
      ReplaceAllAbsent(s[1..], c, rep);
    }
  }

  lemma ReplaceOne(x: char, c: char, rep: string)
    ensures ReplaceAll([x], c, rep) == if x == c then rep else [x]
  {
    assert [x][1..] == [];
  }

  lemma EscHtmlChar(x: char)
    ensures EscHtml([x]) == EscChar(x)
  {
    ReplaceOne(x, '&', "&amp;");
    if x == '&' {
      ReplaceAllAbsent("&amp;", '<', "&lt;");
      ReplaceAllAbsent("&amp;", '>', "&gt;");
    } else {
      ReplaceOne(x, '<', "&lt;");
      if x == '<' {
        ReplaceAllAbsent("&lt;", '>', "&gt;");
      } else {
        ReplaceOne(x, '>', "&gt;");
      }
    }
  }

  /** The three passes of `escHtml` escape each character once: the '&' of an entity
      introduced by a later pass is never escaped again. */
  lemma {:induction false} EscHtmlPerChar(s: string)
    ensures EscHtml(s) == EscapeEach(s)
    decreases |s|
  {
    if s != [] {
      var x, rest := s[0], s[1..];
      assert s == [x] + rest;
      ReplaceAllAppend([x], rest, '&', "&amp;");
      ReplaceAllAppend(ReplaceAll([x], '&', "&amp;"), ReplaceAll(rest, '&', "&amp;"), '<', "&lt;");
      ReplaceAllAppend(ReplaceAll(ReplaceAll([x], '&', "&amp;"), '<', "&lt;"),
                       ReplaceAll(ReplaceAll(rest, '&', "&amp;"), '<', "&lt;"), '>', "&gt;");
      EscHtmlChar(x);
      EscHtmlPerChar(rest);
    }
  }

  /** Escaped text contains no angle bracket. */
  lemma NoAngleBrackets(s: string)
    ensures forall i :: 0 <= i < |EscHtml(s)| ==> EscHtml(s)[i] != '<' && EscHtml(s)[i] != '>'
  {
    EscHtmlPerChar(s);
  }

  /** How an HTML reader decodes the three entities. */
  function Unescape(s: string): string
    decreases |s|
  {
    if s == [] then []
    else if StartsWith(s, "&amp;") then "&" + Unescape(s[5..])
    else if StartsWith(s, "&lt;") then "<" + Unescape(s[4..])
    else if StartsWith(s, "&gt;") then ">" + Unescape(s[4..])
    else [s[0]] + Unescape(s[1..])
  }

  /** Text that starts with `p` and goes on with `rest`. */
  lemma PrefixThenRest(p: string, rest: string)
    ensures StartsWith(p + rest, p) && (p + rest)[|p|..] == rest
  {
    assert (p + rest)[..|p|] == p;
  }

  lemma UnescapeStep(x: char, rest: string)
    ensures Unescape(EscChar(x) + rest) == [x] + Unescape(rest)
  {
    var s := EscChar(x) + rest;
    PrefixThenRest(EscChar(x), rest);
    if x == '&' {
      assert Unescape(s) == "&" + Unescape(rest);
    } else if x == '<' {
      assert !StartsWith(s, "&amp;") by { assert s[1] == 'l' && "&amp;"[1] == 'a'; }
      assert Unescape(s) == "<" + Unescape(rest);
    } else if x == '>' {
      assert !StartsWith(s, "&amp;") by { assert s[1] == 'g' && "&amp;"[1] == 'a'; }
      assert !StartsWith(s, "&lt;") by { assert s[1] == 'g' && "&lt;"[1] == 'l'; }
      assert Unescape(s) == ">" + Unescape(rest);
    } else {
      assert s[0] == x && "&amp;"[0] == '&' && "&lt;"[0] == '&' && "&gt;"[0] == '&';
      assert Unescape(s) == [x] + Unescape(rest);
    }
  }

  /** Escaping loses nothing: the reader gets back exactly the original text. */
  lemma {:induction false} EscHtmlRoundTrip(s: string)
    ensures Unescape(EscHtml(s)) == s
    decreases |s|
  {
    EscHtmlPerChar(s);
    EscapeEachRoundTrip(s);
  }

  lemma {:induction false} EscapeEachRoundTrip(s: string)
    ensures Unescape(EscapeEach(s)) == s
    decreases |s|
  {
    if s != [] {
      UnescapeStep(s[0], EscapeEach(s[1..]));
      EscapeEachRoundTrip(s[1..]);
      assert s == [s[0]] + s[1..];
    }
  }

  /** `buildCallbackData`: the button's own action when its body names one, else cancel
      for a cancel endpoint, else the generic "action". */
  function BuildCallbackData(action: NotifyAction, runId: string): (r: string)
    ensures "action" in action.body && action.body["action"] != "" ==>
      r == "mn:" + action.body["action"] + ":" + runId
    ensures !("action" in action.body && action.body["action"] != "") && EndsWith(action.endpoint, "/cancel") ==>
      r == "mn:cancel:" + runId
    ensures !("action" in action.body && action.body["action"] != "") && !EndsWith(action.endpoint, "/cancel") ==>
      r == "mn:action:" + runId
  {
    if "action" in action.body && action.body["action"] != "" then "mn:" + action.body["action"] + ":" + runId
    else if EndsWith(action.endpoint, "/cancel") then "mn:cancel:" + runId
    else "mn:action:" + runId
  }

  /** A run's cancel button encodes a cancel. */
  lemma CancelButtonData(caption: string, runId: string)
    ensures BuildCallbackData(NotifyAction(caption, CancelEndpoint(runId), map[]), runId) == "mn:cancel:" + runId
  {
    assert CancelEndpoint(runId) == ("/api/v1/runs/" + runId) + "/cancel";
    assert EndsWith(CancelEndpoint(runId), "/cancel");
  }

  /** The label shown for each known status. */
  function StatusLabel(status: string): Option<string> {
    if status == "started" then Some("🚀 Взята в работу")
    else if status == "awaiting_approval" then Some("📋 План готов")
    else if status == "coding" then Some("⚙️ Пишу код")
    else if status == "done" then Some("✅ Готово")
    else if status == "escalated" then Some("⚠️ Эскалация")
    else if status == "failed" then Some("❌ Ошибка")
    else None
  }

  /** The ticket reference: a link when the URL is known, bold text otherwise, nothing
      without a key. */
  function TicketRef(p: NotifyPayload): string {
    if !Truthy(p.ticketKey) then ""
    else if Truthy(p.ticketUrl) then "<a href=\"" + EscHtml(p.ticketUrl.value) + "\">" + EscHtml(p.ticketKey.value) + "</a>"
    else "<b>" + EscHtml(p.ticketKey.value) + "</b>"
  }

  /** The first line: the status label (or the raw status) and the ticket reference. */
  function Header(p: NotifyPayload): (h: string)
    ensures Truthy(p.ticketKey) ==> h == StatusLabel(p.status).GetOr(p.status) + " — " + TicketRef(p)
    ensures !Truthy(p.ticketKey) ==> h == StatusLabel(p.status).GetOr(p.status)
  {
    var shown := StatusLabel(p.status).GetOr(p.status);
    var ticket := TicketRef(p);
    if ticket != "" then shown + " — " + ticket else shown
  }

  /** `String.prototype.slice(0, end)` on UTF-16 code units: a negative end counts from
      the end of `s`; a cut inside a surrogate pair stops before that character. */
  function SliceTo(s: string, end: int): (r: string)
    ensures |r| <= |s| && r == s[..|r|]
    ensures 0 <= end ==> Utf16Length(r) <= end
    ensures 0 <= end && |r| < |s| ==> end < Utf16Length(r) + Units(s[|r|])
    ensures 0 <= end && Utf16Length(s) <= end ==> r == s
    ensures end < 0 ==> Utf16Length(r) <= Utf16Length(s) + end || r == []
  {
    if end >= 0 then Utf16Prefix(s, end)
    else if Utf16Length(s) + end > 0 then Utf16Prefix(s, Utf16Length(s) + end)
    else ""
  }

  /** The plan as shown: cut to `maxPlan` code units with a marker when longer. */
  function PlanShown(plan: string, maxPlan: int): string {
    if Utf16Length(plan) > maxPlan then SliceTo(plan, maxPlan) + TRUNCATED_MARKER else plan
  }

  /** With room for it, a plan is shown whole; a longer one is cut to the room left
      (in UTF-16 code units) and marked, so what is shown never exceeds the room plus the
      marker; a plan of Basic Multilingual Plane characters keeps exactly `maxPlan` of them. */
  lemma PlanCut(plan: string, maxPlan: int)
    requires maxPlan >= 0
    ensures Utf16Length(plan) <= maxPlan ==> PlanShown(plan, maxPlan) == plan
    ensures Utf16Length(plan) > maxPlan ==> PlanShown(plan, maxPlan) == Utf16Prefix(plan, maxPlan) + TRUNCATED_MARKER
    ensures Utf16Length(PlanShown(plan, maxPlan)) <= maxPlan + Utf16Length(TRUNCATED_MARKER)
    ensures Bmp(plan) && |plan| > maxPlan ==> PlanShown(plan, maxPlan) == plan[..maxPlan] + TRUNCATED_MARKER
  {
    if Utf16Length(plan) > maxPlan {
      Utf16LengthAppend(Utf16Prefix(plan, maxPlan), TRUNCATED_MARKER);
    }
    if Bmp(plan) {
      BmpLength(plan);
      BmpPrefix(plan, maxPlan);
    }
  }

  /** The room the plan gets: the message limit less the header's length in code units
      and a 60-unit margin. */
  function MaxPlan(header: string): int {
    TG_MSG_LIMIT - Utf16Length(header) - 60
  }

  /** The body after the header, if any. */
  function Body(p: NotifyPayload): Option<string> {
    if p.status == "awaiting_approval" then
      var plan := if p.message != "" then p.message else "(no plan)";
      Some("<pre>" + EscHtml(PlanShown(plan, MaxPlan(Header(p)))) + "</pre>")
    else if p.status == "done" && p.data.PrData? then
      if Truthy(p.data.prUrl) then Some("<a href=\"" + EscHtml(p.data.prUrl.value) + "\">Открыть PR</a>") else None
    else if p.message != "" && p.status != "started" then Some(EscHtml(p.message))
    else None
  }

  /** `formatMessage`: the header, then the body after a blank line. */
  function FormatMessage(p: NotifyPayload): (text: string)
    ensures StartsWith(text, Header(p))
    ensures Body(p).None? ==> text == Header(p)
    ensures Body(p).Some? ==> text == Header(p) + "\n\n" + Body(p).value
  {
    var parts := [Header(p)] + (if Body(p).Some? then [Body(p).value] else []);
    assert Join(parts[1..], "\n\n") == (if Body(p).Some? then Body(p).value else "");
    var text := Join(parts, "\n\n");
    assert text[..|Header(p)|] == Header(p);
    text
  }

  /** An approval message shows the whole plan when it fits in the room left by the
      header, and a started message never shows its text. */
  lemma ApprovalShowsFittingPlan(p: NotifyPayload)
    requires p.status == "awaiting_approval" && p.message != ""
    requires Utf16Length(p.message) <= MaxPlan(Header(p))
    ensures FormatMessage(p) == Header(p) + "\n\n<pre>" + EscHtml(p.message) + "</pre>"
  {
  }

  /** An approval plan of Basic Multilingual Plane characters longer than the room left
      by the header is cut to exactly that many characters and marked. */
  lemma ApprovalCutsLongPlan(p: NotifyPayload)
    requires p.status == "awaiting_approval"
    requires Bmp(p.message) && |p.message| > MaxPlan(Header(p)) >= 0
    ensures FormatMessage(p) ==
      Header(p) + "\n\n<pre>" + EscHtml(p.message[..MaxPlan(Header(p))] + TRUNCATED_MARKER) + "</pre>"
  {
    var room := MaxPlan(Header(p));
    ApprovalBodyCut(p, room);
    var shown := EscHtml(p.message[..room] + TRUNCATED_MARKER);
    assert Header(p) + "\n\n" + ("<pre>" + shown + "</pre>") == Header(p) + "\n\n<pre>" + shown + "</pre>";
  }

  lemma ApprovalBodyCut(p: NotifyPayload, room: int)
    requires p.status == "awaiting_approval"
    requires room == MaxPlan(Header(p))
    requires Bmp(p.message) && |p.message| > room >= 0
    ensures Body(p) == Some("<pre>" + EscHtml(p.message[..room] + TRUNCATED_MARKER) + "</pre>")
  {
    PlanCut(p.message, room);
  }

  /** Without a ticket the approval header "📋 План готов" is 13 code units long (the
      emoji counts two), which leaves 4023 units for the plan. */
  lemma ApprovalRoomWithoutTicket(p: NotifyPayload)
    requires p.status == "awaiting_approval" && !Truthy(p.ticketKey)
    ensures MaxPlan(Header(p)) == 4023
  {
    assert Header(p) == "📋 План готов";
    assert Utf16Length("📋 План готов") == 13;
  }

  lemma StartedHasNoBody(p: NotifyPayload)
    requires p.status == "started"
    ensures FormatMessage(p) == Header(p)
  {
  }

  /** An inline button: its caption and its callback data. */
  datatype Button = Button(caption: string, callbackData: string)

  /** The keyboard row built from the notification's actions, in order. */
  function Keyboard(p: NotifyPayload): (kb: seq<Button>)
    ensures |kb| == |p.actions|
    ensures forall i :: 0 <= i < |kb| ==>
      kb[i] == Button(p.actions[i].caption, BuildCallbackData(p.actions[i], p.runId))
  {
    seq(|p.actions|, i requires 0 <= i < |p.actions| => Button(p.actions[i].caption, BuildCallbackData(p.actions[i], p.runId)))
  }

  /** The Bot API request a notification is sent with. */
  datatype TgRequest =
    | EditMessageText(chatId: string, messageId: int, text: string, keyboard: seq<Button>)
    | SendMessage(chatId: string, text: string, markup: Option<seq<Button>>)

  /** A run's first notification is sent, with a keyboard only when there are actions;
      later ones edit the remembered message and always carry a keyboard, which clears
      the buttons when there are no actions. */
  function RequestFor(ids: map<string, int>, chatId: string, p: NotifyPayload): TgRequest {
    if p.runId in ids then EditMessageText(chatId, ids[p.runId], FormatMessage(p), Keyboard(p))
    else SendMessage(chatId, FormatMessage(p), if |p.actions| > 0 then Some(Keyboard(p)) else None)
  }

  predicate Finished(status: string) {
    status == "done" || status == "failed" || status == "escalated"
  }

  /** The message ids after a notification. `sentId` is the message id in the answer to a
      successful sendMessage, if it carries one; an id of 0 is not remembered. */
  function NextIds(ids: map<string, int>, p: NotifyPayload, sentId: Option<int>): map<string, int> {
    var afterSend := if p.runId !in ids && sentId.Some? && sentId.value != 0 then ids[p.runId := sentId.value] else ids;
    if Finished(p.status) then afterSend - {p.runId} else afterSend
  }

  /** Only the notified run's entry can change; it is gained only from a send that
      returned an id, never for a finished run, and it is lost exactly when the run
      is finished. */
  lemma NextIdsMeaning(ids: map<string, int>, p: NotifyPayload, sentId: Option<int>)
    ensures var next := NextIds(ids, p, sentId);
      (forall k :: k != p.runId ==> (k in next <==> k in ids) && (k in ids ==> next[k] == ids[k]))
      && (p.runId in next && p.runId !in ids ==> sentId.Some? && next[p.runId] == sentId.value != 0)
      && (p.runId in next <==> !Finished(p.status) && (p.runId in ids || (sentId.Some? && sentId.value != 0)))
      && (p.runId in ids && p.runId in next ==> next[p.runId] == ids[p.runId])
  {
  }

  /** `TelegramChannel`: the target chat and the run-to-message map. */
  class TelegramChannel {
    const chatId: string
    var messageIds: map<string, int>

    /** Every remembered message id is non-zero, so a present entry is a truthy one. */
    ghost predicate Valid()
      reads this
    {
      forall k :: k in messageIds ==> messageIds[k] != 0
    }

    constructor(chatId: string)
      ensures Valid() && this.chatId == chatId && messageIds == map[]
    {
      this.chatId := chatId;
      messageIds := map[];
    }

    /** `send`: the request made for `p`, and the map updated with what the Bot API
        answered (`sentId`, see NextIds). */
    method Send(p: NotifyPayload, sentId: Option<int>) returns (request: TgRequest)
      requires Valid()
      modifies this
      ensures Valid()
      ensures request == RequestFor(old(messageIds), chatId, p)
      ensures messageIds == NextIds(old(messageIds), p, sentId)
    {
      var text := FormatMessage(p);
      var existing := if p.runId in messageIds then messageIds[p.runId] else 0;
      if existing != 0 {
        request := EditMessageText(chatId, existing, text, Keyboard(p));
      } else {
        request := SendMessage(chatId, text, if |p.actions| > 0 then Some(Keyboard(p)) else None);
        if sentId.Some? && sentId.value != 0 {
          messageIds := messageIds[p.runId := sentId.value];
        }
      }
      if Finished(p.status) {
        messageIds := messageIds - {p.runId};
      }
    }
  }
}
