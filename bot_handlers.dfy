/** The bot's entry point for one Telegram update: only updates from the configured
    chat are handled; a button press is handled in preference to a message. */
module BotHandlers {
  import opened Wrappers
  import opened RunStore
  import opened BotCallbacks
  import opened BotCommands

  /** An update carries a message, a button press, both or neither. */
  datatype Update = Update(message: Option<Message>, callbackQuery: Option<CallbackQuery>)

  /** Which handler an update goes to. */
  datatype Handling = ToCallback(cb: CallbackQuery) | ToMessage(msg: Message) | Dropped

  /** `dispatch`'s authorisation: a press is handled when its message is in the allowed
      chat, a message when it is in the allowed chat, and a press is never passed over
      for the message of the same update. */
  function Authorise(update: Update, allowedChatId: int): (h: Handling)
    ensures h.ToCallback? <==>
      update.callbackQuery.Some? && update.callbackQuery.value.chatId == Some(allowedChatId)
    ensures h.ToMessage? <==>
      update.callbackQuery.None? && update.message.Some? && update.message.value.chatId == allowedChatId
    ensures h.ToCallback? ==> h.cb == update.callbackQuery.value
    ensures h.ToMessage? ==> h.msg == update.message.value
  {
    if update.callbackQuery.Some? then
      if update.callbackQuery.value.chatId != Some(allowedChatId) then Dropped
      else ToCallback(update.callbackQuery.value)
    else if update.message.Some? then
      if update.message.value.chatId != allowedChatId then Dropped
      else ToMessage(update.message.value)
    else Dropped
  }

  /** When a press is present the message field is never consulted. */
  lemma PressIgnoresMessage(update: Update, allowedChatId: int, other: Option<Message>)
    requires update.callbackQuery.Some?
    ensures Authorise(update, allowedChatId) == Authorise(update.(message := other), allowedChatId)
  {
  }

  /** An update with neither a message nor a press is dropped. */
  lemma EmptyUpdateDropped(allowedChatId: int)
    ensures Authorise(Update(None, None), allowedChatId) == Dropped
  {
  }

  /** `dispatch`: the update goes to its handler, or nothing happens. */
  method Dispatch(update: Update, allowedChatId: int, pending: PendingRevise, store: Store,
                  resumeFails: bool, findJiraUrl: string -> Option<string>, newRunId: string)
    returns (effects: seq<BotEffect>)
    requires store.Valid()
    modifies pending
    ensures Authorise(update, allowedChatId) == Dropped ==> effects == [] && pending.waiting == old(pending.waiting)
    ensures Authorise(update, allowedChatId).ToMessage? ==>
      var msg := update.message.value;
      var awaited := if msg.chatId in old(pending.waiting) then Some(old(pending.waiting)[msg.chatId]) else None;
      var route := RouteOf(TextOf(msg), awaited, findJiraUrl(TextOf(msg)));
      && effects == Respond(msg, TextOf(msg), route, Listed(store.runs, store.order, None), store.runs, newRunId)
      && pending.waiting == if route.ReviseComment? then old(pending.waiting) - {msg.chatId} else old(pending.waiting)
    ensures Authorise(update, allowedChatId).ToCallback? ==>
      CallbackHandled(update.callbackQuery.value, resumeFails, old(pending.waiting), pending.waiting, effects)
  {
    match Authorise(update, allowedChatId)
    case Dropped =>
      effects := [];
    case ToCallback(cb) =>
      effects := pending.HandleCallback(cb, resumeFails);
    case ToMessage(msg) =>
      effects := HandleMessage(msg, pending, store, findJiraUrl, newRunId);
  }
}
