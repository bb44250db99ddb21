/** Validation of the Telegram notifier settings: both values are trimmed, then checked
    for emptiness, the bot token's shape and the chat id's shape, in that order; the
    first failure disables the channel with its reason. */
module TelegramConfig {
  import opened Wrappers
  import opened Text

  datatype Resolution = Resolution(enabled: bool, botToken: string, chatId: string, reason: Option<string>)

  const EMPTY_REASON: string := "notifier.telegram.botToken/chatId are empty"
  const TOKEN_REASON: string := "notifier.telegram.botToken has invalid format"
  const CHAT_REASON: string := "notifier.telegram.chatId must be numeric"

  /** The class `[A-Za-z0-9_-]`. */
  predicate TokenChar(c: char) { IsWordChar(c) || c == '-' }

  /** `^\d+:[A-Za-z0-9_-]{20,}$`: a bot id, a colon, and a secret of 20 or more characters. */
  ghost predicate IsBotToken(t: string) {
    exists i :: 0 < i < |t| && AllDigits(t[..i]) && t[i] == ':' && |t| - (i + 1) >= 20
      && forall j :: i < j < |t| ==> TokenChar(t[j])
  }

  /** The length of the run of digits at the start of `s[from..]`. */
  function DigitRun(s: string, from: nat): (n: nat)
    requires from <= |s|
    ensures from + n <= |s|
    ensures forall i :: from <= i < from + n ==> IsDigit(s[i])
    ensures from + n == |s| || !IsDigit(s[from + n])
    decreases |s| - from
  {
    if from == |s| || !IsDigit(s[from]) then 0 else 1 + DigitRun(s, from + 1)
  }

  lemma {:induction false} DigitRunFrom(s: string, from: nat, i: nat)
    requires from <= i < |s| && !IsDigit(s[i])
    requires forall j :: from <= j < i ==> IsDigit(s[j])
    ensures DigitRun(s, from) == i - from
    decreases i - from
  {
    if from < i {
      DigitRunFrom(s, from + 1, i);
    }
  }

  /** The token test as a scan: the digits, then the colon, then the secret. */
  function TokenMatches(t: string): (b: bool) {
    var n := DigitRun(t, 0);
    0 < n < |t| && t[n] == ':' && |t| - (n + 1) >= 20 && forall j :: n < j < |t| ==> TokenChar(t[j])
  }

  /** The scan accepts exactly the tokens of the pattern. */
  lemma TokenMatchesIff(t: string)
    ensures TokenMatches(t) <==> IsBotToken(t)
  {
    var n := DigitRun(t, 0);
    if TokenMatches(t) {
      assert AllDigits(t[..n]);
    }
    if IsBotToken(t) {
      var i :| 0 < i < |t| && AllDigits(t[..i]) && t[i] == ':' && |t| - (i + 1) >= 20
        && forall j :: i < j < |t| ==> TokenChar(t[j]);
      assert forall j :: 0 <= j < i ==> t[..i][j] == t[j];
      DigitRunFrom(t, 0, i);
    }
  }

  /** `^-?\d+$`: an optional minus sign and at least one digit. */
  predicate IsChatId(c: string) {
    (c != [] && AllDigits(c)) || (|c| > 1 && c[0] == '-' && AllDigits(c[1..]))
  }

  /** `resolveTelegramConfig`. */
  function Resolve(rawBotToken: string, rawChatId: string): (r: Resolution)
    ensures r.botToken == Trim(rawBotToken) && r.chatId == Trim(rawChatId)
    ensures r.enabled <==> r.botToken != "" && r.chatId != "" && IsBotToken(r.botToken) && IsChatId(r.chatId)
    ensures r.enabled <==> r.reason.None?
    ensures (r.botToken == "" || r.chatId == "") ==> r.reason == Some(EMPTY_REASON)
    ensures r.botToken != "" && r.chatId != "" && !IsBotToken(r.botToken) ==> r.reason == Some(TOKEN_REASON)
    ensures r.botToken != "" && r.chatId != "" && IsBotToken(r.botToken) && !IsChatId(r.chatId) ==>
      r.reason == Some(CHAT_REASON)
  {
    var botToken := Trim(rawBotToken);
    var chatId := Trim(rawChatId);
    TokenMatchesIff(botToken);
    if botToken == "" || chatId == "" then Resolution(false, botToken, chatId, Some(EMPTY_REASON))
    else if !TokenMatches(botToken) then Resolution(false, botToken, chatId, Some(TOKEN_REASON))
    else if !IsChatId(chatId) then Resolution(false, botToken, chatId, Some(CHAT_REASON))
    else Resolution(true, botToken, chatId, None)
  }

  /** A token that fails the pattern is reported before a bad chat id: the checks run in
      order and only the first failure is reported. */
  lemma TokenReportedFirst(rawBotToken: string, rawChatId: string)
    requires Trim(rawBotToken) != "" && Trim(rawChatId) != ""
    requires !IsBotToken(Trim(rawBotToken)) && !IsChatId(Trim(rawChatId))
    ensures Resolve(rawBotToken, rawChatId).reason == Some(TOKEN_REASON)
  {
  }

  /** Surrounding whitespace never matters: resolving trimmed values gives the same result. */
  lemma TrimmedInputsSame(rawBotToken: string, rawChatId: string)
    ensures Resolve(Trim(rawBotToken), Trim(rawChatId)) == Resolve(rawBotToken, rawChatId)
  {
    TrimIdempotent(rawBotToken);
    TrimIdempotent(rawChatId);
    SameTrimSameResolution(Trim(rawBotToken), Trim(rawChatId), rawBotToken, rawChatId);
  }

  /** The resolution depends on the inputs only through their trimmed values. */
  lemma SameTrimSameResolution(rawBotToken: string, rawChatId: string, otherBotToken: string, otherChatId: string)
    requires Trim(rawBotToken) == Trim(otherBotToken) && Trim(rawChatId) == Trim(otherChatId)
    ensures Resolve(rawBotToken, rawChatId) == Resolve(otherBotToken, otherChatId)
  {
  }

  /** A chat id of a group (negative) or of a user (positive) is accepted. */
  lemma SignedChatIds(digits: string)
    requires digits != [] && AllDigits(digits)
    ensures IsChatId(digits) && IsChatId("-" + digits)
  {
    assert ("-" + digits)[1..] == digits;
  }
}
